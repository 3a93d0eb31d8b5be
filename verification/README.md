# Verification of the UAS scheduler module and the wake queue replica

This project models the UAS scheduling extension of the kernel module and proves what its parts
promise each other, over every input, run or interleaving. The parts are independent; each has
modules of its own.

| files | part |
|---|---|
| `fixed_point`, `load_decay`, `load_tracker`, `load_exact`, `load_converge` | per-task load tracking: the table-driven decay, the closed-form update, whole runs of updates and estimates, the distance to exact arithmetic, and the generator of its constants |
| `wake_queue_protocol`, `wake_queue_delivery`, `wake_queue` | the deferred wake-up queue, once as steps of any number of CPUs with what those deliver, once as an intrusive list in the heap |
| `priority_list` | insertion of futex waiters into two interlinked circular lists |
| `ux_tags`, `ux_share`, `ux_share_laws`, `ux_share_task` | inherited boosts: packed tags, counters, the hooks that pass boosts on, and the chains they form |
| `ux_list` | the per-CPU run lists of boosted tasks, their references and their order |
| `active_balance` | tick pull and irq_work push competing for one flag per run queue, and the tasks in flight |
| `xmu_cycles`, `xmu_windows` | cycle estimates per CPU and window statistics |
| `key_task_ring`, `key_task` | the wakers of key tasks and the report protocol of the BPF programs |
| `lock_depth` | lock-depth tracking by the lock hooks |

Each part has a state and a transition function per operation of the source. What the source updates
in place is a class whose methods follow the source statement by statement and are proved equal to
those functions; the theorems are about the functions and about every sequence of them. What a single
step computes is stated apart from its definition, in the units of the source (`...Computes`). Fields that
the source does not have say where a CPU is in its program, or are bookkeeping and marked so (where a
boost came from, who owns a task, what was counted, which references others hold); no outcome of a
source step depends on bookkeeping.

Where the source meets its promise only under a condition, the condition is proved:

- Load tracking credits the whole interval as soon as a period boundary is crossed, however small or
  large the contribution; where none is crossed the sum stays under its ceiling, which is what keeps
  the average within 1024, exactly if the contribution is no more than the current period has grown
  by (`CeilingHoldsExactly`). The generated comment speaks of decay to zero after 2048 periods; the
  code cuts off after 2016.
- `wake_up_q` leaves the head pointing at its old first task; it must be initialised before reuse.
- Tags written in place keep a run list in order exactly if they fit between the neighbours
  (`RetagKeepsOrder`).
- Flag and stop work of a run queue agree after every step of a run exactly if no push stopper of it
  finds its target wiped (`AgreeExactly`). Stop work that has begun also keeps to the recorded target
  exactly if moreover no stopper begins without a target and none has its target wiped or recorded
  anew for another CPU after it began (`TiedExactly`). Recording pushes atomically, or at least never
  over one that has its stop work under way, is sufficient for all of it (`FlagMeansOneStopper`) and
  not necessary (`LateRecordCanBeHarmless`); it is exactly what the invariant of that proof needs,
  which also keeps requests off the way while a push is under way (`FlagsHoldExactly`). After a push
  stopper found its target wiped the flag stays set with no stopper left to clear it
  (`StuckExactly`, `StuckStays`), and such a run exists (`LateRecorderSticks`).
- Even atomic requests get lost: exactly those posted while the single irq_work is pending
  (`LostStep`, `LostExactly`), and then for good (`LostStays`).
- A dequeue on another CPU than the last enqueue breaks the cycle sums exactly if the estimate is
  not zero (`DequeueConserves`).
- A report into a full report map is sent and forgotten, and nothing else breaks the report protocol
  (`StepKeepsProtocol`, `ProtocolHoldsExactly`).
- The lock depths of a task are true after every step exactly if it never begins a wait anew after
  its wake-up, which counts the same lock again, and never begins one while an earlier wait, which
  got its lock without sleeping, is still timed, which counts nothing (`WaitCountsOnceExactly`,
  `DepthsTrueExactly`).

Constants of the Linux kernel that the repository only includes are taken as 2 for
`UTIL_EST_WEIGHT_SHIFT` and 1024 for `SCHED_CAPACITY_SCALE`; the headers are not part of this model.

## Model

| member | source | states |
|---|---|---|
| LoadDecay.DecayMonotone | vendor-module/kernel/android/uas/performance/kernel_module/src/trans_loading.c:766-790 | a larger load never decays to less, at any age |
| LoadDecay.DecaySuperadditive | vendor-module/kernel/android/uas/performance/kernel_module/src/trans_loading.c:766-790 | decaying two loads apart, with both roundings, never gives more than decaying their sum |
| LoadDecay.DecayAntitone | vendor-module/kernel/android/uas/performance/kernel_module/src/trans_loading.c:766-790 | an older load is never larger, across the table wrap at every 32nd period and the cut-off after 63 half-lives |
| LoadDecay.DecayWithinTwo | vendor-module/kernel/android/uas/performance/kernel_module/src/trans_loading.c:766-790 | for every 64-bit value and every age the result is at most the exact table value `val * T[n%32] / 2^(32+n/32)` and less than 2 below it |
| LoadDecay.TableIsGeometric | vendor-module/kernel/android/uas/performance/kernel_module/src/trans_loading.c:127-142 | each entry of the decay table is the one before it times entry 1, to within three units of 2^-32, and the one after the last would be one half |
| LoadDecay.EntryIsPower | vendor-module/kernel/android/uas/performance/kernel_module/src/trans_gen_inv.c:42-55 | entry `i` is the `i`-th power of entry 1, to within `3 * i` units of 2^-32 |
| LoadDecay.FullPeriodsTerm | vendor-module/kernel/android/uas/performance/kernel_module/src/trans_loading.c:914-925 | the unsigned term `MAX - decay(MAX, p) - 1024` never wraps for p >= 1 and is 0 exactly at p = 1 |
| LoadTracker.SumBelowCeiling | vendor-module/kernel/android/uas/performance/kernel_module/src/trans_loading.c:891-963 | on a sample whose contribution fits (a boundary was crossed, or it is no more than the period has grown by), no unsigned subtraction wraps and the new sum is at most `MAX - 1024 + us of the current period`, so the clamp has nothing to cut |
| LoadTracker.AccumulateKeepsInv | vendor-module/kernel/android/uas/performance/kernel_module/src/trans_loading.c:844-977 | one update keeps: `period_contrib` a whole number of us below 1024, `load_sum` under the ceiling of that period, average and estimate on the 0..1024 scale |
| LoadTracker.AverageBelow1024 | vendor-module/kernel/android/uas/performance/kernel_module/src/trans_loading.c:723-732 | a sum under its ceiling never normalises above 1024 |
| LoadTracker.AverageIsShare | vendor-module/kernel/android/uas/performance/kernel_module/src/trans_loading.c:723-732 | the average is the share of the ceiling that the sum is, in 1024ths and rounded down: `avg * (46718 + us) <= 1024 * sum < (avg + 1) * (46718 + us)` |
| LoadTracker.FullShareIs1024 | vendor-module/kernel/android/uas/performance/kernel_module/src/trans_loading.c:712-732 | a task that never left the CPU averages exactly 1024 |
| LoadTracker.ScaledTime | vendor-module/kernel/android/uas/performance/kernel_module/src/trans_loading.c:734-757 | scaled time is the product with capacity and frequency over 2^20, less the two roundings, and unscaled at full capacity and frequency |
| LoadTracker.UpdateComputes | vendor-module/kernel/android/uas/performance/kernel_module/src/trans_loading.c:844-977 | one update: contributions of less than a us are put off with their time; else the clock moves on, the open period is what whole periods leave, and either no boundary is crossed, the sum grows by the contribution and the average stays, or the average is the share of the new sum |
| LoadTracker.SleepDecays | vendor-module/kernel/android/uas/performance/kernel_module/src/trans_loading.c:891-906 | without a contribution the sum is the old one decayed by the periods that passed |
| LoadTracker.CeilingHoldsExactly | vendor-module/kernel/android/uas/performance/kernel_module/src/trans_loading.c:844-977 | that is the exact condition: for every open period, contribution and elapsed time, the sum stays under the ceiling from all records in order if and only if the contribution fits |
| LoadTracker.WithinMarginIsAbs | vendor-module/kernel/android/uas/performance/kernel_module/src/trans_loading.c:983-992 | the unsigned comparison is `abs(value) < margin`, for all values the comment promises it for |
| LoadTracker.EstimateTracksFromAbove | vendor-module/kernel/android/uas/performance/kernel_module/src/trans_loading.c:1004-1099 | the estimate jumps up to the average at once, never falls below it, and gives up at most a quarter of its lead per sample |
| LoadTracker.EstimateComputes | vendor-module/kernel/android/uas/performance/kernel_module/src/trans_loading.c:1004-1099 | the estimate goes up to the average at once, stays while the average is within ten of the one last seen, and otherwise comes down by a quarter of the distance, rounded down |
| LoadTracker.TaskLoad.AccumulateLoading | vendor-module/kernel/android/uas/performance/kernel_module/src/trans_loading.c:844-977 | the update, statement by statement on the fields, is the transition the theorems are about |
| LoadTracker.TaskLoad.UpdateLoadEst | vendor-module/kernel/android/uas/performance/kernel_module/src/trans_loading.c:1004-1099 | the estimate update with its unsigned shift and signed difference is the same as over the integers |
| LoadTracker.EveryRunStaysOnScale | vendor-module/kernel/android/uas/performance/kernel_module/src/trans_loading.c:844-977 | over every run of updates and estimates from `init_task_load`: sum under the ceiling, average and estimate at most 1024, clamp never used |
| LoadExact.ClosedFormIsPeriodByPeriod | vendor-module/kernel/android/uas/performance/kernel_module/src/trans_loading.c:804-843 | in exact arithmetic, for every 0 < y < 1 and every p >= 1, the four-term closed form equals accumulating one period after the other |
| LoadExact.UpdateDrift | vendor-module/kernel/android/uas/performance/kernel_module/src/trans_loading.c:891-948 | one fixed-point update lands less than 4 below and less than 2 above the same update with exact factors |
| LoadExact.EveryRunStaysNearIdeal | vendor-module/kernel/android/uas/performance/kernel_module/src/trans_loading.c:844-977 | over every run the fixed-point sum stays within 187 (of 47742) of the sum kept with exact factors |
| LoadConverge.Generator.CalcConvergedMax | vendor-module/kernel/android/uas/performance/kernel_module/src/trans_gen_inv.c:66-93 | the loop ends for every 32-bit factor below one, on the least fixed point of its recurrence, which is at most `1024 * 2^32 / (2^32 - y_inv)`, at the first period count that reaches it |
| LoadConverge.LoadAvgMaxIsLeastFixedPoint | vendor-module/kernel/android/uas/performance/kernel_module/src/trans_loading.c:127-142 | the compiled-in 47742 is that least fixed point for the compiled-in table |
| WakeQueueProtocol.StepKeepsInv | vendor-module/model/wake_q_demo/03_wake_q_simulation.c:107-265 | every single memory access of any CPU keeps: queues well formed, `next` set exactly on owned tasks, one owner each, reference counts accounted for |
| WakeQueueProtocol.RunKeepsInv | vendor-module/model/wake_q_demo/03_wake_q_simulation.c:107-265 | the same along every interleaving of any number of CPUs and tasks |
| WakeQueueProtocol.QueuedTasksAlive | vendor-module/model/wake_q_demo/03_wake_q_simulation.c:171-189 | in every reachable state a task that is queued, being woken or about to be put is alive |
| WakeQueueProtocol.RefusalHasOneOwner | vendor-module/model/wake_q_demo/03_wake_q_simulation.c:135-150 | a failed claim points at exactly one CPU that owns the task and has not woken it yet |
| WakeQueueProtocol.DebtPersists | vendor-module/model/wake_q_demo/03_wake_q_simulation.c:232-265 | an owed wake-up is settled by its owner and by no other step |
| WakeQueueProtocol.NoLostWakeup | vendor-module/model/wake_q_demo/03_wake_q_simulation.c:135-265 | after any refused claim, in any continuation, either the wake-up was delivered since or the same CPU still owes it; when that CPU has drained its queue it was delivered |
| WakeQueueProtocol.DrainSteps | vendor-module/model/wake_q_demo/03_wake_q_simulation.c:239-262 | a draining CPU always has a next step and each brings it one closer to the end |
| WakeQueueProtocol.DrainUndisturbed | vendor-module/model/wake_q_demo/03_wake_q_simulation.c:239-262 | no step of another CPU lengthens a drain |
| WakeQueueDelivery.EachClaimWakesOnce | vendor-module/model/wake_q_demo/03_wake_q_simulation.c:135-265 | over every run and for every task: the wake-ups delivered, one more while the task stands claimed and one for each CPU that has reset it and not woken it yet, are the claims that succeeded |
| WakeQueueDelivery.StepAccounts | vendor-module/model/wake_q_demo/03_wake_q_simulation.c:135-265 | a step adds to the wake-ups delivered or owed exactly if it is a successful claim, and none loses one |
| WakeQueueDelivery.DrainDelivers | vendor-module/model/wake_q_demo/03_wake_q_simulation.c:232-265 | in every interleaving, a CPU that drains and owes a wake-up has delivered it by the time it has taken the steps that were left to it |
| WakeQueueDelivery.StepReferences | vendor-module/model/wake_q_demo/03_wake_q_simulation.c:171-262 | which step takes and puts which reference: `wake_q_add` takes one on admission, `wake_q_add_safe` passes the one of its caller on or puts it, the drain puts one |
| WakeQueue.WakeQHead.TryAdd | vendor-module/model/wake_q_demo/03_wake_q_simulation.c:135-168 | a free task is appended through the pointer to the tail cell, in every one of the three shapes of `lastp`; a queued one changes nothing |
| WakeQueue.WakeQHead.Add | vendor-module/model/wake_q_demo/03_wake_q_simulation.c:184-189 | as above, with one reference taken exactly when the task was admitted |
| WakeQueue.WakeQHead.AddSafe | vendor-module/model/wake_q_demo/03_wake_q_simulation.c:203-208 | the reference of the caller becomes that of the queue, or is put |
| WakeQueue.WakeQHead.WakeUp | vendor-module/model/wake_q_demo/03_wake_q_simulation.c:232-265 | every member is woken once, in order, freed for re-queueing first, and put once; the head itself is left stale |
| WakeQueue.AddIn | vendor-module/model/wake_q_demo/03_wake_q_simulation.c:184-189 | with several queues sharing tasks, adding keeps every queue well formed and every task in at most one |
| WakeQueue.DrainIn | vendor-module/model/wake_q_demo/03_wake_q_simulation.c:232-265 | draining and re-initialising one queue leaves the others as they were and frees exactly its own tasks |
| WakeQueue.AdmittedOnce | vendor-module/model/wake_q_demo/03_wake_q_simulation.c:135-150 | the tasks admitted by a list of requests are those free at the start, each once |
| WakeQueue.Deferred | vendor-module/model/wake_q_demo/03_wake_q_simulation.c:184-265 | any list of requests, then a drain: each free task wakes once, in order of first request, and no reference count changes |
| PriorityList.InsertKeepsSorted | vendor-module/kernel/android/uas/performance/kernel_module/src/trans_futex.c:168-196 | the list the insertion stands for stays sorted and gains exactly the new node |
| PriorityList.SkipIndex | vendor-module/kernel/android/uas/performance/kernel_module/src/trans_futex.c:168-196 | on a sorted list the skip index is exactly the first node of each priority, by increasing priority |
| PriorityList.TopsOfInsert | vendor-module/kernel/android/uas/performance/kernel_module/src/trans_futex.c:190-191 | the index changes by the new node at the searched position, or not at all if the entry before has its priority |
| PriorityList.Search | vendor-module/kernel/android/uas/performance/kernel_module/src/trans_futex.c:178-188 | the do-while ends at the first index entry of higher value, or once around |
| PriorityList.Plist.Add | vendor-module/kernel/android/uas/performance/kernel_module/src/trans_futex.c:168-196 | in the heap: both circular doubly linked lists stay well formed, the nodes are those of the stable sorted insertion (behind all equals), the index ring runs through exactly the first nodes |
| UxTags.RequestsCarryNoShare | vendor-module/kernel/android/uas/performance/kernel_module/src/sched_common.h:532-565 | no tag word that user space may ask for carries share bits once stored |
| UxTags.TagsOkIsOneHot | vendor-module/kernel/android/uas/performance/kernel_module/src/sched_common.h:567-590 | valid tags have exactly one of the five static priority bits |
| UxTags.FieldsPartition | vendor-module/kernel/android/uas/performance/kernel_module/src/sched_common.h:180-235 | the fields take the tag word apart without overlap |
| UxTags.RaiseStaysInField | vendor-module/kernel/android/uas/performance/kernel_module/src/sched_common.h:216 | raising the dynamic priority adds one inside its three bits or saturates; nothing else changes |
| UxTags.LowerStaysInField | vendor-module/kernel/android/uas/performance/kernel_module/src/sched_common.h:217 | lowering likewise |
| UxTags.RaiseThenLower | vendor-module/kernel/android/uas/performance/kernel_module/src/sched_common.h:216-217 | lowering undoes raising below saturation |
| UxShare.ChainsAreShort | vendor-module/kernel/android/uas/performance/kernel_module/src/sched_common.h:889-1025 | a task in order has a boost of at most five hops, share bits that are one-hot and name the last hop, and no counter near the end of its four bits |
| UxShare.SetShareOk | vendor-module/kernel/android/uas/performance/kernel_module/src/sched_common.c:874-939 | handing on a boost below its limit gives the receiver one more hop, the right bit and the right counter |
| UxShare.UnsetShareOk | vendor-module/kernel/android/uas/performance/kernel_module/src/sched_common.c:941-1002 | ending a boost of any kind, matching or not, keeps bits and counters in agreement |
| UxShare.DecKeeps | vendor-module/kernel/android/uas/performance/kernel_module/src/sched_common.h:965-1025 | only a boost that came by the same way and is still held survives a decrement |
| UxShare.OwnTagsOk | vendor-module/kernel/android/uas/performance/kernel_module/src/sched_common.c:154-239 | a request for own tags, or their cancellation, keeps bits, counters and chain in agreement, and the word parked behind them carries no share bits |
| UxShare.AdjustPrioOk | vendor-module/kernel/android/uas/performance/kernel_module/src/sched_common.c:277-332 | shifting priority and cores of a boosted task keeps boost and identity |
| UxShare.DequeueOk | vendor-module/kernel/android/uas/performance/kernel_module/src/sched_common.c:568-590 | dropping a boost at dequeue keeps the record in order |
| UxShare.StepKeepsOk | vendor-module/kernel/android/uas/performance/kernel_module/src/sched_common.c:874-1002 | every hook, on any task, keeps every task in order |
| UxShare.EveryChainIsShort | vendor-module/kernel/android/uas/performance/kernel_module/src/sched_common.c:18-22 | in every run from untagged tasks every chain of inherited boosts has at most five hops: three over binder, then two over mutexes or two over read-write semaphores |
| UxShare.BinderPassesOn | vendor-module/kernel/android/uas/performance/kernel_module/src/trans_binder.c:120-158 | a binder call passes the boost of a UX donor on exactly if it made fewer than three hops, all binder; the receiver gets the same identity |
| UxShare.BinderTagsAre | vendor-module/kernel/android/uas/performance/kernel_module/src/trans_binder.c:148-155 | what a call hands on beside the identity: slice and dynamic priority of the donor, raised by one and with the longest slice for the launching main thread; never the asynchronous flag |
| UxShare.LockPassesOn | vendor-module/kernel/android/uas/performance/kernel_module/src/trans_mutex.c:37-65 | a lock waiter passes its boost on exactly if it is its own, came over binder, or made one hop over the same kind of lock |
| UxShare.FiveHopsHappen | vendor-module/kernel/android/uas/performance/kernel_module/src/trans_binder.c:120-158 | the bound is reached: five hops happen, a fourth binder hop and a third mutex hop do not |
| UxShare.UnsetTakesOneHolder | vendor-module/kernel/android/uas/performance/kernel_module/src/sched_common.c:966-995 | each end of a boost takes one holder off; the last one clears it, except that a queued binder boost is kept for one more sleep |
| UxShare.OneshotEndsAtSleep | vendor-module/kernel/android/uas/performance/kernel_module/src/sched_common.c:574-590 | that kept boost is gone after the next sleep |
| UxShare.EndsBalanceHolds | vendor-module/kernel/android/uas/performance/kernel_module/src/sched_common.h:965-1025 | off the run lists a boost survives exactly as many ends as it is held, less one, and leaves no trace after |
| UxShareLaws.RequestTakesOver | vendor-module/kernel/android/uas/performance/kernel_module/src/sched_common.c:154-239 | a request on an untagged or boosted task is in force at once, with the base dynamic priority if it names none; boost, counters and chain are gone; a free node of a runnable task is linked |
| UxShareLaws.SecondRequestParks | vendor-module/kernel/android/uas/performance/kernel_module/src/sched_common.c:103-150 | of the own tags and a second request the one with the higher static priority is in force and the other is parked |
| UxShareLaws.ThirdRequestIgnored | vendor-module/kernel/android/uas/performance/kernel_module/src/sched_common.c:146-148 | a request while one is parked is ignored |
| UxShareLaws.CancelUnparks | vendor-module/kernel/android/uas/performance/kernel_module/src/sched_common.c:131-143 | cancelling: with nothing parked the tags go, from exact tags the parked word takes over, from others it is forgotten and the tags stay |
| UxShareLaws.SetTagsRoutes | vendor-module/kernel/android/uas/performance/kernel_module/src/trans_futex.c:63-82 | the futex word boosts, the same type without priority ends that boost, everything else is a request for own tags |
| UxShareLaws.AdjustPrioComputes | vendor-module/kernel/android/uas/performance/kernel_module/src/sched_common.c:277-332 | an adjustment moves the dynamic priority inside its bits and may choose other cores; the rest of the word, and a task without valid tags, stay |
| UxShareLaws.RealExactly | vendor-module/kernel/android/uas/performance/kernel_module/src/sched_common.c:387-478 | which tasks count as UX tasks and which are free to be boosted |
| UxShareLaws.SetShareComputes | vendor-module/kernel/android/uas/performance/kernel_module/src/sched_common.c:874-939 | who takes a boost, and tags, counters, chain and list after it |
| UxShareLaws.UnsetShareComputes | vendor-module/kernel/android/uas/performance/kernel_module/src/sched_common.c:941-1002 | the record after the end of a boost, on any record and for any kind |
| UxShareLaws.UpdateHoldComputes | vendor-module/kernel/android/uas/performance/kernel_module/src/sched_common.c:828-872 | a boost asked for again the same way is held once more, up to four times over binder and futexes |
| UxShareLaws.DequeueComputes | vendor-module/kernel/android/uas/performance/kernel_module/src/sched_common.c:568-590 | a boost ends at dequeue exactly if it was for this one sleep or outran its slice |
| UxShareLaws.BinderHandsOn | vendor-module/kernel/android/uas/performance/kernel_module/src/trans_binder.c:136-158 | the receiver of a call runs on the slice and dynamic priority of the donor, raised for the launching main thread |
| UxShareLaws.BinderReachesRealTime | vendor-module/kernel/android/uas/performance/kernel_module/src/trans_binder.c:131-136 | a call of a UX task treats an untagged real-time receiver like a fair one; other classes take nothing |
| UxShareLaws.BinderToTagged | vendor-module/kernel/android/uas/performance/kernel_module/src/trans_binder.c:121-135 | a receiver that is a UX task is held longer by a call sent to it; others with tags are left alone |
| UxShareLaws.BinderFromRealTime | vendor-module/kernel/android/uas/performance/kernel_module/src/trans_binder.c:167-203 | a real-time donor gives an untagged receiver the standard tags and holds a boosted one longer |
| UxShareLaws.LockHandsOn | vendor-module/kernel/android/uas/performance/kernel_module/src/trans_mutex.c:37-65 | the holder of a lock keeps the priority of the waiter and runs on the slice of the lock |
| UxShareLaws.LockFromRealTime | vendor-module/kernel/android/uas/performance/kernel_module/src/trans_mutex.c:67-83 | of the waiters without UX tags only the display targets hand anything on, standard tags on the slice of the lock |
| UxShareLaws.FutexComputes | vendor-module/kernel/android/uas/performance/kernel_module/src/trans_futex.c:29-49 | the owner of a contended futex gets raised standard tags, or holds its futex boost longer |
| UxShareLaws.EveryTaggedIsInitialised | vendor-module/kernel/android/uas/performance/kernel_module/src/sched_common.c:154-239 | over every run tags are found on initialised records only, so a parked word is never lost |
| UxShareTask.TransTask.SetUxShare | vendor-module/kernel/android/uas/performance/kernel_module/src/sched_common.c:874-939 | the fields after the call are those of the transition above |
| UxShareTask.TransTask.UnsetUxShare | vendor-module/kernel/android/uas/performance/kernel_module/src/sched_common.c:941-1002 | the fields after the call are those of the transition above |
| UxShareTask.TransTask.UpdateUxShareHold | vendor-module/kernel/android/uas/performance/kernel_module/src/sched_common.c:828-872 | a held boost is held longer, up to its limit, and is no longer for one sleep only |
| UxShareTask.BinderSetUxShare | vendor-module/kernel/android/uas/performance/kernel_module/src/trans_binder.c:85-206 | all branches for a UX donor and a real-time donor |
| UxShareTask.LockSetUxShare | vendor-module/kernel/android/uas/performance/kernel_module/src/trans_rwsem.c:41-99 | all branches for a UX donor and a real-time donor, for both kinds of lock |
| UxShareTask.UnsetOne | vendor-module/kernel/android/uas/performance/kernel_module/src/trans_mutex.c:85-100 | the hooks of all four kinds end one boost of their kind, and leave a task that holds none as it was |
| UxList.StepKeepsInv | vendor-module/kernel/android/uas/performance/kernel_module/src/sched_common.c:483-764 | each of the six paths keeps: every task in at most one list, once, where its node says, with one reference per link |
| UxList.EveryRunBalances | vendor-module/kernel/android/uas/performance/kernel_module/src/sched_common.c:216-227 | over every run of the six paths and of other holders: a listed task has one reference more than the others hold, hence is alive; an unlisted one has exactly theirs |
| UxList.QuietRunsStayInOrder | vendor-module/kernel/android/uas/performance/kernel_module/src/sched_common.c:87-101 | over runs that leave the tags of linked tasks alone, every list stays sorted by the 8-bit priority, first come first among equals |
| UxList.RetagKeepsOrder | vendor-module/kernel/android/uas/performance/kernel_module/src/sched_common.c:212 | new tags written in place keep a list in order if and only if they fit between the neighbours |
| UxList.TickRotates | vendor-module/kernel/android/uas/performance/kernel_module/src/sched_common.c:762-763 | a tick moves the running task behind all its equals, ahead of everything lower, keeps the order of the others and the reference count |
| UxList.PickNextUxFair | vendor-module/kernel/android/uas/performance/kernel_module/src/trans_fair.c:23-75 | the pick is nothing exactly if nobody is eligible, else the earliest task of the highest priority among the eligible |
| UxList.EnqueueComputes | vendor-module/kernel/android/uas/performance/kernel_module/src/sched_common.c:483-541 | a UX task with a free node is linked behind its equals with one reference and charged from now on if it has used nothing; any other call changes nothing |
| UxList.SetPrioComputes | vendor-module/kernel/android/uas/performance/kernel_module/src/sched_common.c:203-222 | new tags link a runnable task with a free node by their priority; any other keeps its place |
| UxList.DequeueComputes | vendor-module/kernel/android/uas/performance/kernel_module/src/sched_common.c:552-598 | a linked task is in no list afterwards and has one reference less; its run time is forgotten unless it is still running |
| UxList.UnsetShareComputes | vendor-module/kernel/android/uas/performance/kernel_module/src/sched_common.c:975-995 | the end of a boost unlinks a task and drops its tags, except that a queued binder boost is left alone |
| UxList.TickComputes | vendor-module/kernel/android/uas/performance/kernel_module/src/sched_common.c:731-764 | a tick charges what ran since the last look if that is 4 ms or more, and unlinks a task past its limit |
| UxList.UxLists.InsertUxIntoList | vendor-module/kernel/android/uas/performance/kernel_module/src/sched_common.c:87-101 | the walk stops before the first task of lower priority, behind all equals |
| UxList.UxLists.EnqueueUxTask | vendor-module/kernel/android/uas/performance/kernel_module/src/sched_common.c:483-541 | links a free UX task once, with one reference |
| UxList.UxLists.DequeueUxTask | vendor-module/kernel/android/uas/performance/kernel_module/src/sched_common.c:552-598 | unlinks a linked task and puts its one reference |
| UxList.UxLists.UpdateUxRuntime | vendor-module/kernel/android/uas/performance/kernel_module/src/sched_common.c:711-764 | charges whole slices, times the task out past its limit, else moves it back |
| ActiveBalance.LateRecordKeepsFlags | vendor-module/kernel/android/uas/performance/kernel_module/src/trans_balance.c:3604-3654 | a push recorded without an atomic claim keeps the inductive invariant, which besides the promise about flags keeps requests off the way beside a push, if and only if no push of that run queue has its stop work under way |
| ActiveBalance.FlagsStep | vendor-module/kernel/android/uas/performance/kernel_module/src/trans_balance.c:1552-1576 | a step of kick, stop work, irq_work, recorders and stoppers keeps that invariant if and only if it is not such a recording; so careful recording is sufficient for what the flags promise |
| ActiveBalance.FlagsHoldExactly | vendor-module/kernel/android/uas/performance/kernel_module/src/trans_balance.c:3413-3471 | over every run from the start: that invariant, not the promise itself, holds all along if and only if no step of the run is such a recording |
| ActiveBalance.FlagMeansOneStopper | vendor-module/kernel/android/uas/performance/kernel_module/src/trans_balance.c:3413-3471 | over every run without such a recording, all atomically recorded ones among them: the flag is set exactly while one stop work is pending, tick pull or push but never both, and a started stopper works for the recorded target |
| ActiveBalance.PlacesStep | vendor-module/kernel/android/uas/performance/kernel_module/src/trans_balance.c:1494-1530 | every step keeps each task where it belongs: on the queue of its CPU, or with the one mover that detached it, whose destination it may run on |
| ActiveBalance.RunKeepsPlaces | vendor-module/kernel/android/uas/performance/kernel_module/src/trans_balance.c:1494-1530 | the same along every run, late recordings included |
| ActiveBalance.ExactlyOnePlace | vendor-module/kernel/android/uas/performance/kernel_module/src/trans_balance.c:1494-1530 | every task is on exactly one run queue, or with exactly one mover, or asleep |
| ActiveBalance.MovesAreAllowed | vendor-module/kernel/android/uas/performance/kernel_module/src/trans_balance.c:1461-1489 | a task appears on a run queue only if its affinity allows that CPU, and, unless it wakes there, was already assigned to it |
| ActiveBalance.FinishTakes | vendor-module/kernel/android/uas/performance/kernel_module/src/trans_balance.c:1494-1500 | a stopper that picked a task takes it off its queue, assigns it to its target and keeps it in hand; one that picked none moves nothing |
| ActiveBalance.AttachStoppedPuts | vendor-module/kernel/android/uas/performance/kernel_module/src/trans_balance.c:1505-1530 | that task then goes on the queue of the target |
| ActiveBalance.PullTakes | vendor-module/kernel/android/uas/performance/kernel_module/src/trans_balance.c:1494-1500 | a pulling CPU takes a task off another queue, assigned to itself and in hand |
| ActiveBalance.AttachPulledPuts | vendor-module/kernel/android/uas/performance/kernel_module/src/trans_balance.c:1505-1530 | and puts it on its own queue |
| ActiveBalance.DetachedMayMove | vendor-module/kernel/android/uas/performance/kernel_module/src/trans_balance.c:1461-1489 | a stopper detaches no per-CPU thread, no task whose migration is disabled, and none for a CPU that one of its two masks forbids |
| ActiveBalance.LateRecordCanBeHarmless | vendor-module/kernel/android/uas/performance/kernel_module/src/trans_balance.c:3604-3654 | careful recording is not necessary: from any state where a push may start, a run that records the same push late over itself, with everything the flag promises kept throughout and the flag clear at the end |
| ActiveBalance.LateRecorderSticks | vendor-module/kernel/android/uas/performance/kernel_module/src/trans_balance.c:3604-3654 | recording a push without an atomic claim can leave the flag set with no stopper left: a run to that state from any state where a push may start |
| ActiveBalance.StuckStep | vendor-module/kernel/android/uas/performance/kernel_module/src/trans_balance.c:3240-3244 | whoever records when, a step leaves the flag set without stop work if and only if it is a push stopper that found its target wiped; any other keeps flag and stop work in agreement |
| ActiveBalance.StuckExactly | vendor-module/kernel/android/uas/performance/kernel_module/src/trans_balance.c:3221-3335 | over every run, late recordings included: a run queue ends with its flag stuck if and only if some push stopper of it found its target wiped |
| ActiveBalance.AgreeExactly | vendor-module/kernel/android/uas/performance/kernel_module/src/trans_balance.c:3221-3335 | over every run, late recordings included: one stop work is pending while the flag is set and none otherwise, after every step, if and only if no push stopper of that run queue ever finds its target wiped |
| ActiveBalance.TiedStep | vendor-module/kernel/android/uas/performance/kernel_module/src/trans_balance.c:3221-3471 | a step unties flag, stop work and recorded target if and only if a stopper begins without a target or ends without a valid one, or the target of a push stopper that has begun is recorded anew for another CPU or wiped |
| ActiveBalance.TiedExactly | vendor-module/kernel/android/uas/performance/kernel_module/src/trans_balance.c:3221-3471 | over every run, late recordings included: all that the flag promises holds after every step if and only if no step is one of those |
| ActiveBalance.StuckStays | vendor-module/kernel/android/uas/performance/kernel_module/src/trans_balance.c:3240-3244 | a flag without stop work stays set for good |
| ActiveBalance.SecondPushIsLost | vendor-module/kernel/android/uas/performance/kernel_module/src/trans_balance.c:3649-3665 | two pushes at once lose one: the shared irq_work is refused while pending for another CPU |
| ActiveBalance.LostStep | vendor-module/kernel/android/uas/performance/kernel_module/src/trans_balance.c:3649-3665 | a step loses a request if and only if it posts it while the irq_work is pending |
| ActiveBalance.LostExactly | vendor-module/kernel/android/uas/performance/kernel_module/src/trans_balance.c:3603-3665 | over every run of atomically recorded requests: a request of a run queue is lost at the end if and only if some post for it was taken with the irq_work pending |
| ActiveBalance.LostStays | vendor-module/kernel/android/uas/performance/kernel_module/src/trans_balance.c:3603-3605 | a lost push request is never dropped and shuts its CPU out of push balancing for good |
| ActiveBalance.DetachRunning | vendor-module/kernel/android/uas/performance/kernel_module/src/trans_balance.c:1701-1772 | the one walk returns the recorded task if it may go, else the first fitting other |
| ActiveBalance.PreferredIs | vendor-module/kernel/android/uas/performance/kernel_module/src/trans_balance.c:1701-1772 | the task picked is the recorded one if it is listed and may move, else of the others of the right kind that may move the one listed last, else none |
| ActiveBalance.KickedIsPicked | vendor-module/kernel/android/uas/performance/kernel_module/src/trans_balance.c:1552-1576 | a kick on a clear flag records target, task and kind so that the stopper picks that task if it may move; on a set flag it changes nothing |
| ActiveBalance.RecordedIsPicked | vendor-module/kernel/android/uas/performance/kernel_module/src/trans_balance.c:3649-3654 | the same for a recorded push |
| ActiveBalance.DecideStarts | vendor-module/kernel/android/uas/performance/kernel_module/src/trans_balance.c:3413-3471 | the handler starts a push exactly on a valid target, a worthwhile push and a clear flag, and leaves the requests as they are |
| ActiveBalance.EndsClear | vendor-module/kernel/android/uas/performance/kernel_module/src/trans_balance.c:3221-3335 | which fields the end of a tick pull, of a push with and without target, and of a push given up clear |
| ActiveBalance.BalanceRq.TransKickActiveBalance | vendor-module/kernel/android/uas/performance/kernel_module/src/trans_balance.c:1552-1576 | sets flag, target and task only on a clear flag |
| ActiveBalance.BalanceRq.IrqwbWorkfn | vendor-module/kernel/android/uas/performance/kernel_module/src/trans_balance.c:3413-3471 | sets the flag only on a clear flag and a valid target, else wipes the request |
| ActiveBalance.BalanceRq.TickStop | vendor-module/kernel/android/uas/performance/kernel_module/src/trans_balance.c:1852-1957 | clears the request on every way out and detaches only a task that may run on the target |
| ActiveBalance.BalanceRq.PushStop | vendor-module/kernel/android/uas/performance/kernel_module/src/trans_balance.c:3221-3335 | clears the request except when it finds no valid target; picks the recorded task if it may go, else the first fitting one met on the walk, among the fair tasks before the real-time ones |
| XmuCycles.ConvertThereAndBack | vendor-module/kernel/android/uas/performance/kernel_module/src/trans_xmu.c:172-178 | converting cycles to another CPU and back never inflates them and loses less than one cycle of the slower domain plus one |
| XmuCycles.RenewedApproaches | vendor-module/kernel/android/uas/performance/kernel_module/src/trans_xmu.c:406-416 | a renewed estimate lies between the average and the old estimate, and a gap g above the average shrinks to between (5g-6)/8 and (5g+1)/8 |
| XmuCycles.EstimateSettles | vendor-module/kernel/android/uas/performance/kernel_module/src/trans_xmu.c:406-416 | under a constant average the estimate reaches it after finitely many dequeues and stays |
| XmuCycles.DequeueConserves | vendor-module/kernel/android/uas/performance/kernel_module/src/trans_xmu.c:391-405 | a dequeue keeps the sums right if and only if it happens on the CPU of the last enqueue or the estimate is zero |
| XmuCycles.StepConserves | vendor-module/kernel/android/uas/performance/kernel_module/src/trans_xmu.c:360-416 | every enqueue with its rescaling, dequeue with its renewal, and resampling keeps the sum of each CPU |
| XmuCycles.EveryRunConserves | vendor-module/kernel/android/uas/performance/kernel_module/src/trans_xmu.c:360-416 | over every run `cpu_cycle_est` is the sum of the estimates of the tasks queued on that CPU, and the subtraction never underflows |
| XmuCycles.EnqueueMovesWork | vendor-module/kernel/android/uas/performance/kernel_module/src/trans_xmu.c:360-388 | a task carries its work over to the CPU it is queued on: estimate, average and open count times the new scale are those times the old one, less one rounding, and the counts as they are where scales are equal or unknown; its estimate is added there |
| XmuCycles.DequeueRenews | vendor-module/kernel/android/uas/performance/kernel_module/src/trans_xmu.c:391-416 | the estimate leaves the CPU and is then renewed, up to the average at once or three eighths of the way down to it |
| XmuCycles.Xmu.XmuTaskEnqueue | vendor-module/kernel/android/uas/performance/kernel_module/src/trans_xmu.c:360-388 | the records after the call, branch by branch |
| XmuCycles.Xmu.XmuTaskDequeue | vendor-module/kernel/android/uas/performance/kernel_module/src/trans_xmu.c:391-416 | the records after the call, branch by branch |
| XmuWindows.WindowsAddUp | vendor-module/kernel/android/uas/performance/kernel_module/src/trans_xmu.c:239-248 | however switches cut up the time, the windows folded are the whole windows since the start, none lost and none twice |
| XmuWindows.RoundedOnce | vendor-module/kernel/android/uas/performance/kernel_module/src/trans_xmu.c:250-261 | after any run of folds, average plus open window is the exactly weighted sum of all counts rounded down once |
| XmuWindows.AverageBelowMass | vendor-module/kernel/android/uas/performance/kernel_module/src/trans_xmu.c:256-261 | an average never exceeds a bound on the mass of each fold |
| XmuWindows.MoveHalves | vendor-module/kernel/android/uas/performance/kernel_module/src/trans_xmu.c:239-254 | with n windows passed everything gathered is in the average, halved n times and rounded down once |
| XmuWindows.AdvanceKeepsGrid | vendor-module/kernel/android/uas/performance/kernel_module/src/trans_xmu.c:229-238 | a tick closes one window and opens one now; other updates close the 4 ms windows that are over |
| XmuWindows.MoreStallsLimitMore | vendor-module/kernel/android/uas/performance/kernel_module/src/trans_xmu.c:191-211 | more memory stalls never raise the frequency limit |
| XmuWindows.LimitRatio | vendor-module/kernel/android/uas/performance/kernel_module/src/trans_xmu.c:191-211 | the kept ratio is between 832 and 1024 of 1024, and 1024 whenever there is nothing to limit by |
| XmuWindows.LimitIsShare | vendor-module/kernel/android/uas/performance/kernel_module/src/trans_xmu.c:191-211 | the ratio is 1024 less the weighted share of the stalls in the cycles, in 1024ths and rounded down, up to 192 |
| XmuWindows.CpuXmu.UpdateMove | vendor-module/kernel/android/uas/performance/kernel_module/src/trans_xmu.c:234-261 | clock, statistics and limit of a CPU after a tick or a switch |
| XmuWindows.TaskXmu.UpdateMove | vendor-module/kernel/android/uas/performance/kernel_module/src/trans_xmu.c:270-309 | clock and statistics of a task; late updates are dropped and a task switched to is not charged |
| KeyTaskRing.LatestInsertionsStay | vendor-module/kernel/android/uas/performance/trankeythread/bpf/tranKeyTask.c:238-300 | after any history of wake-ups the record names no waker twice and holds exactly the last eight that entered it, oldest first |
| KeyTaskRing.LoadsCount | vendor-module/kernel/android/uas/performance/trankeythread/bpf/tranKeyTask.c:246-248 | each load is the number of wake-ups by that waker since it last entered the record |
| KeyTaskRing.DepArr.SearchDepUpdate | vendor-module/kernel/android/uas/performance/trankeythread/bpf/tranKeyTask.c:238-264 | the array scan finds a waker exactly if the list it stands for has it, and counts there only |
| KeyTaskRing.DepArr.InsertTask | vendor-module/kernel/android/uas/performance/trankeythread/bpf/tranKeyTask.c:266-280 | writing the slot at `ins_idx` drops exactly the oldest of a full list |
| KeyTaskRing.DepArr.UpdateDep | vendor-module/kernel/android/uas/performance/trankeythread/bpf/tranKeyTask.c:282-300 | array and counters stand for the list after the wake-up |
| KeyTask.StepKeepsProtocol | vendor-module/kernel/android/uas/performance/trankeythread/bpf/tranKeyTask.c:147-370 | a step keeps the report protocol if and only if it does not report into a full report map |
| KeyTask.EveryRunAlternates | vendor-module/kernel/android/uas/performance/trankeythread/bpf/tranKeyTask.c:147-370 | over every run without that, reports and retractions of each pid strictly alternate, a report first, and the report map holds exactly the pids whose last message is a report |
| KeyTask.ProtocolHoldsExactly | vendor-module/kernel/android/uas/performance/trankeythread/bpf/tranKeyTask.c:147-370 | over every run: the report protocol holds after every step if and only if no report meets a full report map |
| KeyTask.StepKeepsRecords | vendor-module/kernel/android/uas/performance/trankeythread/bpf/tranKeyTask.c:94-370 | records of wakers exist for key tasks only and are what their wake-ups make of them |
| KeyTask.RecordsFit | vendor-module/kernel/android/uas/performance/trankeythread/bpf/tranKeyTask.c:287-291 | the map of records never refuses a key task its record |
| KeyTask.ReportedWakersAreBusy | vendor-module/kernel/android/uas/performance/trankeythread/bpf/tranKeyTask.c:246-259 | a waker is reported over the threshold only after 120 wake-ups of the same key task since it entered its record |
| KeyTask.EveryRunNamesOwnWakers | vendor-module/kernel/android/uas/performance/trankeythread/bpf/tranKeyTask.c:322-336 | over every run the record of a key task names threads of its own process only, and no binder thread |
| KeyTask.WakingComputes | vendor-module/kernel/android/uas/performance/trankeythread/bpf/tranKeyTask.c:302-341 | a wake-up of a key task by a user thread of its own process, while enabled, leaves that thread in the record with its load one higher, and reports it at 120 if it is not reported; any other wake-up changes nothing |
| KeyTask.OomScoreAdjComputes | vendor-module/kernel/android/uas/performance/trankeythread/bpf/tranKeyTask.c:94-121 | important tasks become key tasks if there is room, others stop being key tasks and lose their record |
| KeyTask.RenameComputes | vendor-module/kernel/android/uas/performance/trankeythread/bpf/tranKeyTask.c:147-228 | which messages a rename sends, and who is reported and a key task after it |
| KeyTask.FreeComputes | vendor-module/kernel/android/uas/performance/trankeythread/bpf/tranKeyTask.c:350-370 | an exit leaves nothing of a pid and retracts it exactly if it was reported |
| KeyTask.Programs.TpTaskRename | vendor-module/kernel/android/uas/performance/trankeythread/bpf/tranKeyTask.c:147-228 | maps and messages after a rename, branch by branch |
| KeyTask.Programs.TpSchedWaking | vendor-module/kernel/android/uas/performance/trankeythread/bpf/tranKeyTask.c:302-341 | maps, record and messages after a wake-up, in place |
| KeyTask.Programs.TpSchedProcessFree | vendor-module/kernel/android/uas/performance/trankeythread/bpf/tranKeyTask.c:350-370 | maps and messages after an exit |
| KeyTask.Programs.TpOomScoreAdjUpdate | vendor-module/kernel/android/uas/performance/trankeythread/bpf/tranKeyTask.c:94-121 | maps after a change of importance |
| LockDepth.StepKeepsInv | vendor-module/kernel/android/uas/performance/kernel_module/src/trans_locking.c:706-901 | every hook and reset keeps: total depth at most the sum of the three, sleeps counted in both, a start wherever there is depth |
| LockDepth.EveryRunKeepsInv | vendor-module/kernel/android/uas/performance/kernel_module/src/trans_locking.c:706-901 | the same under every interleaving with non-zero clocks |
| LockDepth.ProtectedExactly | vendor-module/kernel/android/uas/performance/kernel_module/src/trans_locking.c:646-694 | on every run a task is spared exactly while it is in a lock and either its start is not past yet or, where running time counts, it has run for at most 4 ms; one in a lock that is not spared is cleared |
| LockDepth.AcquireComputes | vendor-module/kernel/android/uas/performance/kernel_module/src/trans_locking.c:706-758 | taking a lock after a wait starts its time anew and counts nothing; without one it counts, and starts the time where it is the first |
| LockDepth.ReleaseComputes | vendor-module/kernel/android/uas/performance/kernel_module/src/trans_locking.c:759-776 | dropping takes one off both depths, never below zero, and forgets a start with the last |
| LockDepth.WaitComputes | vendor-module/kernel/android/uas/performance/kernel_module/src/trans_locking.c:784-829 | a wait counts the lock and starts the timer unless one of its type is being timed |
| LockDepth.WakeComputes | vendor-module/kernel/android/uas/performance/kernel_module/src/trans_locking.c:836-901 | a wake-up stops the timer; sleeps of half a millisecond or more are counted with their duration and start the time anew |
| LockDepth.BracketedRunsTrack | vendor-module/kernel/android/uas/performance/kernel_module/src/trans_locking.c:706-901 | on every bracketed run from a clean record, waits that get their lock without sleeping included: each depth is the number of locks held and awaited, more by the waits begun anew and less by those missed; starts, timers and the total go with it |
| LockDepth.WaitCountsOnceExactly | vendor-module/kernel/android/uas/performance/kernel_module/src/trans_locking.c:784-829 | the start of a wait leaves the lock counted once if and only if the task was not just woken for it and no earlier wait of that type is still timed |
| LockDepth.DepthIsTrueExactly | vendor-module/kernel/android/uas/performance/kernel_module/src/trans_locking.c:706-829 | at the end of a bracketed run a depth is the number of locks held and awaited if and only if as many waits were begun anew as were missed |
| LockDepth.DepthsTrueExactly | vendor-module/kernel/android/uas/performance/kernel_module/src/trans_locking.c:706-901 | over every bracketed run: after each step all three depths are the locks held and awaited and the total is their sum, if and only if no wait begins anew after its wake-up or while an earlier one is still timed |
| LockDepth.TaskLocks.RecordLockStarttime | vendor-module/kernel/android/uas/performance/kernel_module/src/trans_locking.c:706-782 | the records after taking or dropping a lock |
| LockDepth.TaskLocks.LockWaitStart | vendor-module/kernel/android/uas/performance/kernel_module/src/trans_locking.c:784-829 | the records after starting to wait |
| LockDepth.TaskLocks.SchedWakingDstateEnd | vendor-module/kernel/android/uas/performance/kernel_module/src/trans_locking.c:836-901 | the records after a wake-up, spins under half a millisecond not counted |
| LockDepth.TaskLocks.TaskInlockProtect | vendor-module/kernel/android/uas/performance/kernel_module/src/trans_locking.c:646-694 | answer and records of the protection test |
| LockDepth.TaskLocks.SchedSwitchPrev | vendor-module/kernel/android/uas/performance/kernel_module/src/trans_locking.c:967-993 | the records are kept if the task was preempted or sleeps uninterruptibly, else cleared |

## Left out

- LoadTracker.TaskLoad.AccumulateLoading: takes the contribution and both capacity scales as given; how `update_task_loading` derives them from run-queue statistics, and whether contributions can exceed the elapsed time, is not modelled.
- LoadDecay.DecayLoad: models the configured half-life of 32 periods; the tables for 64 and 128 differ only in data.
- LoadTracker.EveryRunStaysOnScale: clocks below 2^64 ns, and capacity and frequency read once per update.
- WakeQueueProtocol.StepKeepsInv: sequential consistency; orderings weaker than that are not modelled in the wake queue.
- WakeQueue.WakeQHead.TryAdd: other CPUs do not interleave in the heap version; that is what the step version is for.
- UxShareTask.BinderSetUxShare: the routes without a donor task and the asynchronous real-time route take tags from the process leader with its share bits and none of its counters; the invariant is not claimed for them.
- UxShare.UnsetShareOk: the unlocked first look at tags and counters may be stale; the locked part is proved for any kind, so a stale look is covered, but the race itself is not a step.
- UxShare.OwnTagsOk: the asynchronous-binder side route of the tag interface, accounting and tracing.
- UxList.QuietRunsStayInOrder: excludes tags rewritten in place on linked tasks, which the source does not reposition.
- UxList.UxLists.UpdateUxRuntime: the run limit by scene is a parameter; the CPU clock is two numbers.
- UxList.UxLists.InsertUxIntoList: the list is a sequence, so the pointers of the list nodes are not modelled here (they are for the priority list and the wake queue).
- ActiveBalance.FlagMeansOneStopper: stop work always accepted, no CPU hotplug. Which CPU is scanned first is left open.
- ActiveBalance.LateRecordKeepsFlags: target and task of a push are recorded and wiped in one step, and a late recorder is a step only while no handler of its CPU is on its way.
- ActiveBalance.DetachRunning: which tasks are ready, fit or busy is given by flags; the tests of task state behind them are not modelled.
- XmuCycles.EveryRunConserves: per-CPU counters and scales without concurrent updates of one task; freeing a task that is still queued is not modelled.
- XmuWindows.RoundedOnce: counts are unbounded; u64 overflow of counters and a window count beyond 2^31 are not modelled.
- KeyTask.EveryRunAlternates: programs run one at a time, the ring buffer never refuses a message, user space does not delete reports.
- LockDepth.BracketedRunsTrack: runs in which the records are cleared, or a lock of another type is taken or waited for while one is awaited, are covered by the invariant of every run only.
- LockDepth.EveryRunKeepsInv: `pcpurwsem` is declared but never written; the system-wide sleep histogram is not modelled.
- UxShare.StepKeepsOk: the feature switches are on; the fields that the rest of the kernel sets may change at any time.
- Mutex and read-write semaphore wait-list insertion for UX tasks, target tables, CPU selection, frequency setting from cycle estimates: easier members of the same kind.
- Tracepoints, sysfs and proc handlers, counter reads, hook registration, module init and exit.
- The Java, HIDL and AIDL services, configuration parsing, loaders, drivers and demos other than the wake queue simulation.
