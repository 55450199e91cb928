# The scheduler kernel of hisi-rtos

This project models the single-hart scheduler kernel of `hisi-rtos`: task table, ready queues,
wait queues, priority-inheriting mutexes, counting semaphores, switch tickets, periodic CPU
quotas, task-slot reservations, resource handles and the timer re-arm protocol. It proves the
contract of `docs/spec/scheduling.md` and stronger forms of it for any number of tasks,
semaphores, mutexes, interrupts and steps.

Check it with `dafny verify dfyconfig.toml`.

## How it is built

* `Lists`, `Kernel`, `Budget` - the data and every critical section as a function on scheduler
  states. A state keeps one sequence per control-block field, indexed by slot, and the contents of
  each intrusive list as a sequence of slots: bucket `p` is list `p`, then one list per semaphore,
  then one per mutex.
* `Inheritance`, `Chains` - donation ledgers, the wait-for graph, what a refresh along a chain of
  owners keeps, and the global meaning of an effective priority.
* `Invariant`, `Steps`, `MutexSteps`, `Preserved`, `PreservedMutex`, `PreservedHart`, `Runs` - the
  invariant, its preservation by each critical section, and whole runs: any interleaving of thread
  calls, posts, priority and policy changes, timer interrupts and traps.
* `Theorems`, `Accounts`, `Locking`, `Wakeups`, `Waits`, `Charging` - what the invariant means:
  ownership, who runs next, tickets, conservation of permits and of mutex acquisitions, the scheduler
  lock, what ends a wait or a sleep, and what a budget is charged over whole runs.
* `Order`, `Queueing`, `Picks`, `Fairness`, `Answers` - what each operation does to the order of every list,
  whom it gives the hart to, what every call answers and sets, and first come, first served over whole runs.
* `Quota`, `Consumption`, `Conduct` - what a budgeted task consumes, as opposed to what it is charged:
  the time it has the hart, accounted for to the millisecond, exactly when the quota bounds it, and
  which sequences of budget events the kernel can produce.
* `Identities` - task identities across exits and spawns.
* `Lifecycle`, `Worlds` - semaphores and mutexes created and destroyed behind their handles, with the
  resolving of a handle and the use of the object as two separate steps.
* `Links`, `Queues`, `SchedFacts`, `Sched` - the scheduler in its own form: a class whose methods
  update the fields and the shared `next` links in place, with the loops and the mutual recursion of
  the source. Each method equals the function on states; each panic and assertion of the source is
  an assertion that is proved.
* Arrays embedded in the scheduler are fields of sequence type that the methods reassign; the tables
  of reservations and resources are arrays.
* `Audit`, `AuditMeets` - the ownership audit on arbitrary, possibly damaged snapshots.
* `Timer`, `Deadlines`, `Clockwork` - the re-arm loop run by any number of callers that preempt each
  other anywhere, the deadlines it arms the timer for, and both together with the scheduler and its
  time slice.
* `Handles`, `Resource`, `Reservation`, `Admission` - generation-checked handles, the registry, the
  reservation table and stack conservation.

## What is assumed

* A task exits only when it owns no mutex: `src/runtime.rs:638-640` clears the control block and
  releases nothing. It exits only when a switch can be delivered and it holds no lock, which the
  source asserts (`src/runtime.rs:624-637`).
* The idle slot never gets a budget policy: `src/runtime/scheduler.rs:1273-1275` pushes without the
  idle check of `make_ready`. Idle only ever yields.
* Calls that may block, mutex calls and spawns come from thread mode, except a semaphore wait where no
  switch can be delivered, which an interrupt handler may make too; a spawn finds no ticket pending.
* The first step a task takes when a blocked wait resumes is the critical section that consumes
  its grant; `call` records which.
* A semaphore count stays below `i32::MAX` on a post, and the 64-bit ticket sequence is not exhausted.
* `semaphore_destroy` and `mutex_destroy` are unsafe: callers exclude them while another caller is
  between resolving its handle and using the object (`src/runtime/driver.rs:10-11`,
  `docs/spec/scheduling.md:154-156`). `Worlds.WorldsSafe` assumes it, as `Careful`; `Worlds.BetweenExact`
  says exactly what holds without it, and `Worlds.BreachDangles` gives a run in which it matters.
* The allocator hands out no memory that is still in use.
* A plan and a reservation are offered at most 255 slots: the callers offer the free slots of a table
  of at most 256.

Semaphores and mutexes are indexed by number where the source uses addresses. Clock readings, the
validity of switch delivery and the lock limit are parameters; so is, except in `Clockwork`, whether
the time slice is over. The state between the timer throttling the running task and the trap, with
nobody running and no ticket, is part of the invariant (`Hart`).

## Where the code and its promises part

* `docs/spec/scheduling.md:66-73` promises that a task consumes at most one capacity between phase
  boundaries and is throttled at exhaustion. `on_switch_out` may charge the last of a budget and leave
  the task ready (`src/scheduling.rs:113-116`), the dispatch does not look at what remains
  (`src/runtime/scheduler.rs:386-399`, `1121-1127`), and a running budget with nothing remaining has no
  exhaustion deadline (`src/scheduling.rs:118-121`), so the task then runs until something else
  interrupts it. `Consumption.QuotaFails` is such a run from boot, of any length, with a quota of two
  milliseconds in a hundred. `Quota.DispatchExact` gives the exact condition, which can be checked
  at the dispatch: a stint is bounded by its capacity, plus the lock overrun and the lateness of the
  timer, if and only if not `remaining == 0 && now < replenishes_at` (with no overrun pending).
  `Quota.PromiseExact` gives it over a phase window, for the events `Conduct.ReachableLawful` shows the
  kernel can produce, and `Consumption.KernelConsumption` the bound on consumption that every run meets.
* `docs/spec/scheduling.md:77-79` asks that use is never under-accounted. `Quota.RanIsAccounted` gives
  exactly what the charges leave out: the time the budget clock stood still, the time an exhaustion
  deadline was missed by, and the time of stints dispatched with nothing remaining.
* What is charged in one window can also exceed one capacity: a task that runs across a boundary keeps
  its old remainder and may be refilled later in the same window. `Budget.CrossingOvercharges` gives
  the events, `Budget.CrossingIsReached` a budget that gets there, `Budget.OnePerWindowExact` and
  `Quota.WindowExact` the exact condition for debits and for consumption. `Budget.ChargeBound` bounds
  the debits, not the consumption.
* `docs/spec/scheduling.md:207-211` promises that a stale deadline is never final. It holds unless a
  caller sleeps inside the loop for exactly a multiple of 2^64 claims: `Timer.WrapBreaks`,
  `Timer.CheckExact`, `Timer.QuiescentIsCurrent`.
* `docs/spec/scheduling.md:212-216` wants an immediate deadline whenever the running task has to give
  way. `set_task_priority` (`src/runtime/driver.rs:322-337`) can make it so and neither re-arms the
  timer nor pends a reschedule: `Clockwork.PriorityMissed` is a run that ends with the timer disarmed.
  `Clockwork.ReachableQuiet` gives the exact condition and shows that no other operation does this.
* A change of policy leaves the stored slice deadline and the flag of a slice that is over as they are
  (`src/runtime/scheduler.rs:1245-1276`), so the new slice may be cut short: `Clockwork.SliceEarly`.
  The clock of a claim is read before its critical section, so one from before the latest dispatch
  may cut a slice short too. Otherwise a preemption by slice comes no earlier than a whole slice:
  `Clockwork.SliceNotEarly`.
* At the last instant of the 64-bit clock a replenishment is not strictly later: `Budget.RefillIsLater`.
* `src/runtime/driver.rs:100` indexes past its row when a group asks for more than fifteen stacks and
  the allocator supplies them: `Admission.FitsExactly`. A group's slot count is a non-zero `usize` of
  which nothing in this repository limits the size before that line (`src/runtime/reservation.rs:79`
  refuses counts over 255, later). The driver crate that defines `TaskResourceRequirements` and could
  limit it is not part of this model.

## Model

| member | source | states |
|---|---|---|
| Inheritance.RefreshKeeps | src/runtime/scheduler.rs:605-643 | A priority refresh started at a task whose price alone may be wrong ends, along an owner chain of any length, with every task priced right, every donation count equal to the number of donors at that level, every list holding exactly its tasks and every wait queue sorted |
| Inheritance.LedgerMoved | src/runtime/scheduler.rs:632-643 | A donor that changes level leaves a count that was at least one and moves exactly one unit; the ledger stays exact |
| Chains.GlobalPriority | src/runtime/scheduler.rs:605-643 | The incrementally kept effective priority is the minimum base priority over the task and everybody who transitively waits on mutexes it owns, and it is attained |
| Theorems.ReachablePriority | docs/spec/scheduling.md:168-170 | The same in every state of every run from the start, for any number of tasks, semaphores and mutexes |
| Theorems.CountsFit | src/runtime/scheduler.rs:636-650 | No donation count can exceed its byte: the `too many inherited waiters` panic cannot happen |
| Chains.ChainContainsExact | src/runtime/sync.rs:741-758 | The capped walk along owners returns true exactly when the sought task is reachable; the cap never decides |
| Chains.NewEdgeAcyclic | src/runtime/sync.rs:291-302 | Waiting for a mutex closes a cycle if and only if the waiter is reachable from the owner, which is what the walk refuses |
| MutexSteps.EnlistCore | src/runtime/sync.rs:291-309 | Queueing on a mutex and donating along the chain keeps lists, ledger, priorities and acyclicity |
| MutexSteps.LeaveMtxCore | src/runtime/sync.rs:402-416 | A waiter that gives up takes back exactly its own donation; everything stays exact |
| MutexSteps.ReleaseMutexCore | src/runtime/sync.rs:356-391 | Handoff keeps everything exact, and re-donating the remaining waiters never changes the priority of the new owner |
| Theorems.UnlockHandsOff | src/runtime/sync.rs:328-391 | The final unlock gives the mutex at depth one to the first of its most urgent waiters, ready, granted, with unchanged priority |
| Runs.StepKeeps | src/runtime/scheduler.rs:658-961 | Every enabled critical section, of any of seventeen kinds, keeps the whole invariant |
| Runs.ReachableInv | docs/spec/scheduling.md:15-43 | Every state of every run from the start satisfies the invariant, for every system size |
| Preserved.ReleaseSemKeeps | src/runtime/sync.rs:212-231 | A post keeps the invariant |
| Preserved.SemDownKeeps | src/runtime/sync.rs:139-187 | A semaphore wait, refused, satisfied or suspended, keeps the invariant |
| PreservedMutex.MutexLockKeeps | src/runtime/sync.rs:267-326 | A lock call keeps the invariant on every branch |
| PreservedMutex.CancelKeeps | src/runtime/sync.rs:393-464 | Cancelling a queued wait or an unconsumed grant keeps the invariant |
| PreservedHart.WakeSleepersKeeps | src/runtime/scheduler.rs:1026-1066 | The timer scans keep the invariant, whatever wakes, times out or is refilled |
| PreservedHart.TrapKeeps | src/runtime/scheduler.rs:916-961 | The trap epilogue keeps the invariant from every state, also after the timer throttled the running task |
| PreservedHart.SetPolicyKeeps | src/runtime/scheduler.rs:1245-1276 | A policy change keeps the invariant |
| PreservedHart.ExitKeeps | src/runtime.rs:623-649 | A task that owns no mutex and exits leaves the invariant intact |
| Theorems.ReachableOwnership | docs/spec/scheduling.md:15-43 | In every state of every run from the start: a non-idle Ready task is in exactly its own bucket or is the pending target, never both; waiters are in their queue only; all others and idle are nowhere; nothing is listed twice; wait queues are sorted; at most one task runs and it is `current`; a pending ticket means nobody runs; tickets issued are tickets consumed plus the pending one |
| Identities.TaskLife | docs/spec/scheduling.md:9-10 | Whatever runs, exits and is spawned afterwards, a task identity names its own task until that exits, then nothing, until its slot was taken anew a multiple of 65535 times |
| Identities.SlotLife | src/runtime.rs:413-457 | Over any run the generation of a slot counts its spawns; without one its task is alive exactly until it exits |
| Identities.ReachableIds | src/runtime.rs:602-621 | In every reachable state a slot's identity is its generation while its task is alive, and zero while it is free |
| Theorems.PickIsBest | src/runtime/scheduler.rs:386-404 | Popping takes the first of the most urgent eligible tasks, and nothing only when there is none |
| Theorems.PreemptionExact | src/runtime/scheduler.rs:844-879 | Exactly when a running task must give way, by policy, urgency and slice |
| Theorems.TicketsFlow | src/runtime/scheduler.rs:754-815 | Nothing but the trap touches a pending ticket, and the trap runs exactly its target |
| Theorems.TicketsCount | src/runtime/scheduler.rs:708-815 | Each step issues at most one ticket, numbered one past the last, and consumes at most one, never the same twice |
| Picks.SleepPicks | src/runtime.rs:575-596 | A sleep is refused exactly under the scheduler lock; otherwise the ticket goes to the first of the most urgent eligible tasks, to idle only if none is eligible, and everybody else keeps their place |
| Picks.ExitPicks | src/runtime.rs:623-649 | The same choice after an exit |
| Picks.SemDownPicks | src/runtime/sync.rs:139-187 | Exactly when a semaphore wait takes a permit, gives up at once, is refused or suspends; the suspended task stands behind all that are at least as urgent, and the same choice is made |
| Picks.MutexLockPicks | src/runtime/sync.rs:267-326 | Exactly when a lock call deepens an own mutex, takes a free one, gives up at once, is refused (no delivery, scheduler lock held, or the owner waits for the caller over any number of mutexes) or suspends; and the same choice |
| Picks.UnlockPicks | docs/spec/scheduling.md:92-93 | The outermost unlock with no exhaustion pending switches if and only if the caller has to give way without the lock, by urgency, policy and slice; then the caller is ready at the back of its bucket and the first of the most urgent has the ticket; otherwise only the lock is gone |
| Picks.OverrunTurns | src/runtime/scheduler.rs:1002-1018 | With an exhaustion pending the caller is throttled and the same choice is made |
| Picks.NestedUnlock | src/runtime/scheduler.rs:983-1001 | A nested unlock takes one level off and nothing else; without the lock the call is refused |
| Picks.YieldPicks | src/runtime.rs:551-572 | A yield is refused exactly under the lock, comes back exactly if nobody is eligible after the scans, and otherwise hands over to the first of the most urgent |
| Picks.TrapChoice | src/runtime/scheduler.rs:916-961 | The trap runs the target of a pending ticket; else, if nobody runs, the first of the most urgent; else it preempts exactly a task that has to give way, for the first of the most urgent; else it changes nothing |
| Picks.StepTurns | docs/spec/scheduling.md:45-47 | Every step of any kind keeps, in every ready bucket and every wait queue, the order of all tasks it neither requeues nor reprices, and puts whoever enters behind all at least as urgent |
| Order.RefreshOrder | src/runtime/scheduler.rs:605-643 | A refresh along an owner chain of any length raises or lowers all of the chain and moves nobody else in any list |
| Fairness.StepGives | src/runtime/scheduler.rs:386-404 | Every step of any kind that gives the hart to somebody, by ticket or in the trap, gives it to the first of the most urgent eligible tasks, and to idle only if there is none |
| Fairness.GivenAhead | docs/spec/scheduling.md:45-47 | The hart goes past an eligible task only to more urgent tasks and those ahead of it in its bucket |
| Fairness.FirstServed | docs/spec/scheduling.md:45-47 | Over any run through which a task stays eligible at its priority and policy, the hart is given only to more urgent tasks and those that were ahead of it in its bucket at the start: no equal that became ready later gets it first |
| Answers.StepSettings | src/runtime/driver.rs:322-337 | A priority change and a spawn set a base priority, a policy change and a spawn a policy, an exit the defaults; no other step changes either of any task |
| Answers.PriorityTakes | src/runtime/driver.rs:322-337 | A priority change of any task, waiting or not, becomes its base, changes nothing but prices and queue places, and leaves every priority the least of the new bases among the task and those who transitively wait for it |
| Answers.AskedAndGiven | docs/spec/scheduling.md:168-170 | In every run from the start the priority of a live task is the least of the priorities last asked for by it and its transitive waiters, and its policy the one last asked for |
| Answers.SpawnLands | src/runtime.rs:413-457 | A spawned task is eligible, last in the bucket of the priority asked for, with a full quota, waiting for and holding nothing; nobody else is touched |
| Answers.PolicyLands | docs/spec/scheduling.md:57-59 | A policy change puts a queued task at the back of its bucket and makes a throttled one eligible there; the quota starts full, its clock running exactly if the task is |
| Answers.TimerEnforces | src/runtime/scheduler.rs:1068-1106 | The timer throttles the running task exactly if nothing of its quota remains and it holds no lock; under the lock it records the exhaustion |
| Answers.MutexUnlockAnswers | src/runtime/sync.rs:328-354 | Refused exactly to others than the owner; a nested unlock undoes one lock call, the last one frees the mutex if nobody waits |
| Answers.CancelAnswers | src/runtime/sync.rs:393-464 | A cancellation finds something exactly if the task is blocked or holds what it was handed and has not consumed; its call then comes back without it |
| Answers.StepLock | src/runtime/scheduler.rs:969-1001 | While the lock is held only lock and unlock calls change its depth, by one, and nothing its start; a lock call is refused exactly at the depth limit |
| Answers.LockTimed | docs/spec/scheduling.md:97-100 | From the outermost lock call on, whatever happens while the task keeps the lock: it keeps the hart, the depth is what the replies say, the limit counts from that call, and the timer reports the lock exactly at the limit or later, with the time since |
| Answers.UnlockedUntimed | src/runtime/scheduler.rs:1310-1316 | Without the lock there is no limit and nothing to report |
| Answers.StepFlag | src/runtime/scheduler.rs:880-961 | Exactly which steps set and clear the flag of a slice that is over |
| Answers.SliceCovered | src/runtime/scheduler.rs:1318-1354 | For a preemptive task with an equal eligible, a claim arms the end of its slice, or now if it has to give way already; at that end it has to give way unless it holds the lock |
| Accounts.SupplyStep | src/runtime/sync.rs:90-187 | Posts add one permit, acquisitions take one, and blocking, handoff, timeout and cancellation only move them |
| Accounts.PermitsConserved | src/runtime/sync.rs:437-486 | Over any run: banked permits + unconsumed grants + acquisitions = initial supply + posts |
| Accounts.PostPicksBest | src/runtime/sync.rs:212-231 | A semaphore with waiters has no permits; a post grants one to the first of the most urgent waiters |
| Accounts.HeldStep | src/runtime/sync.rs:267-354 | What a task holds of a mutex changes only by telling that task so |
| Accounts.HoldingsConserved | src/runtime/sync.rs:267-354 | Over any run the depth a task holds is its acquisitions minus its unlocks |
| Accounts.MutualExclusion | docs/spec/scheduling.md:166-167 | Counted from replies alone, at most one task has acquired a mutex more often than it unlocked it |
| Worlds.WorldsSafe | docs/spec/scheduling.md:154-159 | In every run from the empty registry in which no destroy falls between another caller's resolving and its use: no task ever waits for, owns or is granted an object without a live slot of its kind, and every reference still to be used is to a live object |
| Worlds.WorldStep | src/runtime/driver.rs:397-526 | Every creation, destruction, interrupt, other step and call leaves nothing dangling, unless the call takes or waits for an object that is dead |
| Worlds.UseExact | src/runtime/driver.rs:7-20 | Using a resolved reference leaves nothing dangling if and only if the object is still live, or the call neither takes a mutex nor waits |
| Worlds.SurvivesExact | src/runtime/driver.rs:446-466 | A resolved object is live at its use if and only if no destroy of it fell between, not made up for by a creation at the same address |
| Worlds.BetweenExact | src/runtime/driver.rs:7-20 | Resolve, then any moves that themselves leave nothing dangling, then use: nothing dangles afterwards if and only if no such destroy fell between or the call does not entangle its task |
| Worlds.BreachDangles | docs/spec/scheduling.md:154-156 | A run from the empty registry that breaks only the destroy contract and leaves a task waiting for a semaphore that is gone |
| Worlds.IdleExact | src/runtime/driver.rs:446-525 | A destroy call finds the object idle exactly when no task waits for it, owns it or holds a grant of it |
| Lifecycle.StepUsers | src/runtime/sync.rs:139-326 | Only a wait on an object or taking it makes a task name it |
| Locking.LockHolds | docs/spec/scheduling.md:90-96 | While the lock is held no step of any kind takes the hart away, blocking calls are refused, and a deferred exhaustion is lost only to a policy change of the task itself |
| Locking.UnlockThrottles | src/runtime/scheduler.rs:1002-1025 | The outermost unlock after an exhaustion throttles with nothing left and eligibility strictly after now, and commits a ticket |
| Scheduler.Sched.constructor | src/runtime.rs:290-357 | The state `init` leaves |
| Scheduler.Sched.SetEffective | src/runtime/scheduler.rs:568-603 | In place: moves a ready task between buckets and re-sorts a semaphore waiter, like the function on states |
| Scheduler.Sched.Refresh | src/runtime/scheduler.rs:605-631 | In place and mutually recursive: equals the function on states; the depth assertion never fails |
| Scheduler.Sched.ReplaceInheritance | src/runtime/scheduler.rs:632-643 | In place; neither count check ever fails |
| Scheduler.Sched.AddInheritance | src/runtime/scheduler.rs:645-652 | In place; the count check never fails |
| Scheduler.Sched.RemoveInheritance | src/runtime/scheduler.rs:653-657 | In place; the count check never fails |
| Scheduler.Sched.PrepareIntent | src/runtime/scheduler.rs:708-733 | The new sequence number and intent; both assertions hold |
| Scheduler.Sched.CommitIntent | src/runtime/scheduler.rs:754-798 | For an intent of any age: commits exactly when source and target are unchanged, otherwise gives a detached target back to its bucket |
| Scheduler.Sched.CommitSwitch | src/runtime/scheduler.rs:739-752 | Prepare and commit in one section always succeeds |
| Scheduler.Sched.PrepareSwitchAway | src/runtime/scheduler.rs:674-693 | Turned away exactly when the source was resumed; then nothing changed |
| Scheduler.Sched.ReleaseSemaphore | src/runtime/sync.rs:212-231 | In place: equals the function on states and keeps the state stable |
| Scheduler.Sched.SemaphoreDown | src/runtime/sync.rs:139-187 | In place, all four outcomes; the fresh switch is never cancelled |
| Scheduler.Sched.ConsumeSemaphore | src/runtime/sync.rs:233-238 | In place: the reply tells whether the wait was granted |
| Scheduler.Sched.MutexChainContains | src/runtime/sync.rs:741-758 | The loop equals the capped walk |
| Scheduler.Sched.MutexLock | src/runtime/sync.rs:267-326 | In place, all outcomes |
| Scheduler.Sched.ConsumeMutex | src/runtime/sync.rs:318-325 | In place: the reply tells whether the mutex was handed over |
| Scheduler.Sched.ReleaseMutex | src/runtime/sync.rs:356-391 | In place, walking the queue while other queues are re-sorted under it |
| Scheduler.Sched.MutexUnlock | src/runtime/sync.rs:328-354 | In place, owner-only, recursive |
| Scheduler.Sched.LeaveSemaphore | src/runtime/sync.rs:466-486 | In place: timeout or cancellation of a semaphore wait |
| Scheduler.Sched.LeaveMutex | src/runtime/sync.rs:402-416 | In place: timeout or cancellation of a mutex wait |
| Scheduler.Sched.CancelWait | src/runtime/sync.rs:393-464 | In place; the debug assertions on owner and depth hold |
| Scheduler.Sched.WakeSleepers | src/runtime/scheduler.rs:1026-1066 | Both scans, in place |
| Scheduler.Sched.OnTimer | src/runtime/scheduler.rs:1068-1119 | Scans, then the charge of the running task; reports how long the lock has been held if that reaches the limit |
| Scheduler.Sched.ConsumePending | src/runtime/scheduler.rs:801-815 | The ticket is taken; identity and sequence assertions hold |
| Scheduler.Sched.TakeRescheduleTarget | src/runtime/scheduler.rs:844-879 | In place; the popped task is never NIL and never the running one |
| Scheduler.Sched.ScheduleFromTrap | src/runtime/scheduler.rs:916-961 | In place, all three branches |
| Scheduler.Sched.YieldNow | src/runtime.rs:551-572 | In place, up to the switch; refused when a switch could not be delivered |
| Scheduler.Sched.SleepUntil | src/runtime.rs:575-596 | In place, up to the switch; refused when a switch could not be delivered |
| Scheduler.Sched.TaskExit | src/runtime.rs:623-649 | In place, up to the switch |
| Scheduler.Sched.SpawnInto | src/runtime.rs:413-457 | In place, once the slot is chosen |
| Scheduler.Sched.SetTaskPriority | src/runtime/driver.rs:322-337 | In place: a new base priority, refreshed along the chain |
| Scheduler.Sched.SetRunPolicy | src/runtime/scheduler.rs:1245-1276 | In place: new budget lifetime, a throttled task is ready again |
| Scheduler.Sched.LockCurrent | src/runtime/scheduler.rs:969-982 | In place, with the depth limit |
| Scheduler.Sched.UnlockCurrent | src/runtime/scheduler.rs:983-1025 | In place; the missing-timestamp and missing-policy panics cannot happen |
| Queues.Queues.Append | src/runtime/scheduler.rs:368-378 | Links the task last in one list and touches no other list |
| Queues.Queues.PopReady | src/runtime/scheduler.rs:386-399 | Unlinks the head of the first non-empty bucket |
| Queues.Queues.Remove | src/runtime/scheduler.rs:405-426 | Cuts the task out of a bucket, or changes nothing if it is not there |
| Queues.Queues.Contains | src/runtime/scheduler.rs:428-442 | The bounded walks find exactly the queued tasks |
| Queues.Queues.Enqueue | src/runtime/sync.rs:22-39 | Links a waiter behind every waiter at least as urgent |
| Queues.Queues.RemoveWaiter | src/runtime/sync.rs:41-68 | The same removal with a bounded walk, which the bound never cuts short |
| Links.LinkedInsert | src/runtime/sync.rs:488-505 | Linking in before a position keeps all lists acyclic, disjoint and tail-correct |
| Links.LinkedRemove | src/runtime/sync.rs:507-534 | Unlinking a position keeps all lists acyclic, disjoint and tail-correct |
| Lists.InsertSplits | docs/spec/scheduling.md:151-153 | A waiter goes between the last at least as urgent and the first less urgent one: FIFO within a priority |
| Audit.ReadyOwnershipAudit | src/runtime/scheduler.rs:447-566 | On an arbitrary snapshot the audit ends, stays in bounds and reports zero violations if and only if the snapshot is sound; memberships, first buckets and the counters of duplicates, wrong priorities and invalid links are exact up to saturation |
| Audit.AuditBucket | src/runtime/scheduler.rs:450-498 | One bounded bucket walk adds exactly its repeated visits, misplaced tasks and faulty links to the counters |
| Audit.CountersExact | src/runtime/scheduler.rs:36-43 | The duplicate count is zero exactly if no task is visited twice; the other two exactly if every bucket is well linked and at its priority |
| Audit.SoundIsClean | src/runtime/scheduler.rs:447-566 | Soundness, stated over lists that exist, is what bounded walks can decide |
| AuditMeets.AuditOfReachable | src/runtime/scheduler.rs:544-564 | On reachable states the audit is clean except between throttling the running task and the trap |
| Timer.StepConsistent | src/runtime/time.rs:79-118 | Whatever caller steps next: the hardware holds the latest command, or some caller still owes a correction |
| Timer.QuiescentIsCurrent | docs/spec/scheduling.md:207-211 | Whenever no caller is in the loop the hardware holds what the latest claim computed |
| Timer.CheckExact | src/runtime/time.rs:69-77 | The wrapped comparison is right about a ticket exactly unless its age is a positive multiple of 2^64 |
| Timer.WrapBreaks | src/runtime/time.rs:69-77 | A run in which an exactly 2^64 claims old ticket passes and a stale command stays |
| Timer.AloneLeaves | src/runtime/time.rs:84-117 | A caller nobody interferes with programs its command and leaves after one round |
| Timer.EarliestIsLeast | src/runtime/time.rs:19-33 | The earliest deadline is one of the five sources and none is earlier |
| Deadlines.EverythingCovered | src/runtime/scheduler.rs:1286-1358 | The armed deadline is no later than any sleeper's or timed waiter's, the running budget's exhaustion, any throttled task's boundary, the lock limit, and now if the running task has to give way |
| Deadlines.NothingArmed | src/runtime/scheduler.rs:1286-1358 | The timer is disarmed if and only if nothing of all that exists; a running budget asks for no interrupt exactly when nothing remains or its clock stands still |
| Deadlines.QuietTimerMeetsDeadlines | docs/spec/scheduling.md:202-216 | Whenever the re-arm loop is quiet the hardware fires by every one of those deadlines of the state the latest claim read, or at the next tick if it is due |
| Clockwork.StepBoard | src/runtime/time.rs:73-118 | Kernel operations and re-arm loops in any order: once a claim came after everything that re-arms, the scheduler differs from what it read in priorities at most, and only if one was set since |
| Clockwork.ReachableQuiet | docs/spec/scheduling.md:212-216 | In every run from the start, a quiet timer meets every deadline of the state the scheduler is in now, unless a priority set since the latest claim made the running task have to give way and the timer is not due at the next tick anyway |
| Clockwork.PriorityMissed | src/runtime/driver.rs:322-337 | A run that ends with the timer quiet and disarmed while the running task has to give way |
| Clockwork.SliceNotEarly | src/runtime/scheduler.rs:1340-1354 | In every run from the start a preemption by slice comes no earlier than a whole slice after the dispatch, unless the task's policy was changed since or a claim came with a reading from before the dispatch |
| Clockwork.SliceEarly | src/runtime/scheduler.rs:1245-1276 | A run in which a policy change leaves a task due to be preempted at once, with a slice of a hundred it has not had |
| Budget.ReplenishClosedForm | src/scheduling.rs:162-178 | The saturating closed form is the first boundary of the original phase after now, capped; its `+ 1` cannot overflow |
| Budget.ThrottleAfterLockOverrun | src/scheduling.rs:138-160 | The period-by-period loop ends, also at saturation, at that same boundary |
| Budget.BoundaryIsFirst | src/scheduling.rs:162-178 | The boundary is strictly later and no boundary of the phase lies between |
| Budget.RefillIsLater | src/scheduling.rs:138-178 | Eligibility moves strictly past now exactly when the clock is not at its end |
| Budget.ChargedByRefills | src/scheduling.rs:106-136 | Between replenishments at most one capacity is charged |
| Budget.RefillsByWindows | src/scheduling.rs:162-178 | Replenishments fall in distinct phase windows |
| Budget.ChargeBound | src/scheduling.rs:106-187 | Debits: a stretch touching n windows is charged at most (n + 1) capacities |
| Quota.RanIsAccounted | docs/spec/scheduling.md:77-79 | For any events: the time on the hart is exactly what was charged, plus what passed with the clock standing still, past a missed deadline, and in empty stints |
| Quota.SlowExact | src/scheduling.rs:118-121 | Time passes beyond a deadline if and only if an interrupt or switch comes later than the exhaustion deadline armed for it |
| Quota.DispatchExact | docs/spec/scheduling.md:71-73 | A stint is bounded by one capacity plus lock overrun and lateness, whatever happens in it, if and only if it was not dispatched with nothing remaining before its boundary |
| Quota.EmptyStint | src/scheduling.rs:118-121 | After such a dispatch no exhaustion deadline exists and the stint lasts for any length of time |
| Quota.QuotaBound | docs/spec/scheduling.md:66-68 | Over n phase windows the time on the hart is at most (n + 1) capacities plus the three terms, and the last vanishes without an empty dispatch |
| Quota.WindowExact | docs/spec/scheduling.md:66-68 | Consumption in the window after a boundary stays within one capacity, apart from the three terms, if and only if the task does not run across the boundary with budget left, or the window is too short |
| Quota.PromiseExact | docs/spec/scheduling.md:66-73 | With lock overrun and lateness allowed for but empty stints not, consumption in the window after a boundary stays within one capacity, whatever the scheduler may do in it, if and only if an overrun is pending at the boundary, or the quota and what a late clock had covered beyond its remainder are at least the period less one |
| Conduct.StepLawful | src/runtime/scheduler.rs:1026-1127 | Every step does to a quota only what the scheduler may: it dispatches no throttled task, charges only the running one, refills only throttled ones, and keeps a task with a pending overrun on the hart |
| Conduct.ReachableLawful | src/runtime/scheduler.rs:1026-1127 | From any point of any run from the start, all that happens to a quota within one lifetime is such a sequence, and quota, hart and throttling are coherent at its start |
| Budget.OnePerWindowExact | docs/spec/scheduling.md:66-68 | Debits: for every budget whose clock started before the boundary, what is charged in the window stays within one capacity plus what was used before the boundary if and only if the task does not run across it with budget left, or the window is too short |
| Budget.CrossingOvercharges | src/scheduling.rs:106-121 | The events that charge one more than that, from every budget that runs across its boundary |
| Budget.CrossingIsReached | src/scheduling.rs:81-121 | A fresh quota of 2 in 10, dispatched at 9 and interrupted at 10, gets there |
| Wakeups.WokenExactly | src/runtime/scheduler.rs:1026-1066 | The wake-up pass readies exactly the sleepers and waiters whose deadline has passed, the waiters without a grant, and the throttled tasks whose boundary has come, with a full budget; it touches no other task |
| Waits.StepWaits | src/runtime/sync.rs:212-486 | A step ends a wait or sleep if and only if it hands the task the permit or mutex, cancels its wait, or scans at or after its deadline; any other step leaves it as it is |
| Waits.TimedWaitEnds | src/runtime/sync.rs:139-187 | Through any run without such a step a semaphore wait goes on; then the first timer interrupt at or after its deadline readies the task without a permit, and none before does |
| Waits.TimedLockEnds | src/runtime/scheduler.rs:1026-1055 | The same for a mutex wait, and the mutex stays with its owner |
| Waits.SleepEnds | src/runtime.rs:575-596 | Through any run whose scans read earlier times a sleep goes on; it ends at the first timer interrupt at or after its deadline and not before |
| Charging.BudgetStep | src/runtime/scheduler.rs:1057-1127 | Every step applies to each budget exactly its own events, unless it starts a new lifetime |
| Charging.RunBudget | src/scheduling.rs:106-187 | Over any run a budget is what its events make of it |
| Charging.KernelChargeBound | src/scheduling.rs:106-187 | Debits: in any run, within one lifetime, a stretch touching n phase windows charges a task at most (n + 1) capacities, whatever else happens |
| Consumption.HartTimeIsRan | src/runtime/scheduler.rs:1121-1127 | In any run the time a task is current, by the clock readings, is what its budget events measure |
| Consumption.KernelConsumption | docs/spec/scheduling.md:66-83 | In any run, within one lifetime, a stretch touching n phase windows has the task current for at most (n + 1) capacities plus lock overrun, missed deadlines and empty stints; the second vanishes if and only if no deadline is missed, the third if no dispatch is empty |
| Consumption.QuotaFails | docs/spec/scheduling.md:66-73 | A legal run from boot in which a quota of two in a hundred is charged two while the task is current for as long as one likes, no deadline is missed and the timer is disarmed |
| Charging.PolicyStartsPhase | src/scheduling.rs:81-92 | Installing a quota fills it and starts a phase at that instant |
| Charging.ReachableClock | src/runtime/scheduler.rs:1121-1127 | In every state of every run from the start only the current task's budget clock runs, and it does run while a budgeted task without a pending overrun has the hart |
| Reservation.ReservationTable.Reserve | src/runtime/reservation.rs:62-114 | A refusal changes nothing; success opens a fresh token for the first free entry and the stacks become the table's |
| Reservation.ReservationTable.ReservePlan | src/runtime/reservation.rs:116-166 | All groups or none; the roll-back arm is unreachable after the checks |
| Reservation.ReservationTable.Consume | src/runtime/reservation.rs:188-213 | One promise and, if there are stacks, exactly one stack leave the table |
| Reservation.ReservationTable.Release | src/runtime/reservation.rs:215-240 | All stacks still held come back once and the token is dead |
| Reservation.TotalsUpdate | src/runtime/reservation.rs:58-96 | Changing one entry changes sum and stacks by exactly its share |
| Reservation.TokenLife | src/runtime/reservation.rs:242-265 | A reservation token names its own reservation until that is released, then nothing, until its entry was opened anew a multiple of 65535 times; it never promises more than it did |
| Reservation.EntryLife | src/runtime/reservation.rs:62-240 | Over any sequence of calls the generation of an entry counts its openings |
| Admission.TaskTable.SpawnOrdinary | src/runtime/scheduler.rs:1133-1149 | Refused exactly when every free slot is promised |
| Admission.TaskTable.SpawnReserved | src/runtime/scheduler.rs:1232-1243 | A live reservation with promises left always finds a slot |
| Admission.TaskTable.Reserve | src/runtime/scheduler.rs:1180-1193 | Promises never exceed free slots |
| Admission.TaskTable.Capacity | src/runtime/scheduler.rs:277-285 | used + reserved + free = capacity, and no subtraction saturates |
| Admission.ReserveTaskResources | src/runtime/driver.rs:172-190 | Every stack obtained ends in the reservation or is given back once |
| Admission.PreallocateTaskStacks | src/runtime/driver.rs:22-46 | All stacks, or none with every obtained one given back |
| Admission.PreallocateTaskResourcePlan | src/runtime/driver.rs:75-103 | A row per group, or everything given back; indexes past a row in exactly the stated cases |
| Admission.FitsExactly | src/runtime/driver.rs:82-101 | No allocator can push the plan past a row if and only if no group asks for more than fifteen stacks |
| Admission.ReserveTaskResourcePlan | src/runtime/driver.rs:192-212 | All groups with all stacks, or no group and every stack given back; runs past a row in exactly the stated cases |
| Handles.RoundTrip | src/runtime/resource.rs:94-109 | Encoding and decoding a handle are inverse |
| Handles.TaskRoundTrip | src/runtime.rs:602-621 | Encoding and decoding a task identity are inverse |
| Handles.ReuseWraps | src/runtime/resource.rs:86-92 | A slot shows an old generation again exactly after a multiple of the generation range |
| Resource.ResourceTable.Insert | src/runtime/resource.rs:44-59 | The first empty slot, next generation; a full table is unchanged |
| Resource.ResourceTable.Remove | src/runtime/resource.rs:74-83 | Empties exactly the slot of a handle that resolves |
| Resource.InsertResolves | src/runtime/resource.rs:44-72 | The new handle resolves to the new object under its own kind only |
| Resource.InsertKeeps | src/runtime/resource.rs:44-72 | No other live handle is disturbed by an insertion |
| Resource.RemoveKills | src/runtime/resource.rs:74-83 | The removed handle is dead and no other |
| Resource.HandleLife | src/runtime/resource.rs:44-109 | Whatever is created and destroyed afterwards, a handle names its own object or nothing until its slot is reused, and then nothing until the generation has gone all the way round |
| Resource.SlotLife | src/runtime/resource.rs:44-92 | Over any sequence of calls the generation of a slot counts its reuses |
| Resource.StaleStaysDead | src/runtime/resource.rs:61-72 | A stale handle resolves again only after the generation of its slot has wrapped |

## Left out

- Context-switch assembly, trap frames and `mstatus` (`src/context.rs`): a switch is a change of `current` and of the resume generation.
- The spin of `execute_switch` until the source resumes, and its target-frame assertion (`src/runtime.rs:470-512`).
- The port-less switch path (`src/runtime.rs:512-527`): the ownership results are about ported, committed switches.
- The Embassy deadline is a parameter of the earliest deadline. `Clockwork` states when a slice preempts and what a quiet timer meets; `Answers.SliceCovered` states what a claim arms for a slice; for an equal that a priority call puts beside the running task no claim follows, as in `Clockwork.PriorityMissed`.
- Lock-overrun reports change no state: `Scheduler.Sched.OnTimer` returns one, the counters and the reaction to it are not modelled.
- Observability counters, task metrics and `irq_task` bookkeeping: saturating updates.
- Retired stacks and when spawners reclaim them (`src/runtime.rs:212-224`).
- `hisi_alloc`, the storage wrapper, the Embassy queue and the WS63 port: allocators, the Embassy deadline and the timer hardware are parameters.
- `BudgetState`: it is a `Copy` value in the control block and is modelled as one; `throttle_after_lock_overrun` keeps its loop.
- `Scheduler.Sched.SetRunPolicy`, `Scheduler.Sched.SpawnInto` and the other methods that change many fields update them one field at a time; the order of those updates inside a critical section is not part of their contracts.
- Liveness: `Fairness.FirstServed` says who may get the hart before a waiting task, not that it gets it; that is up to what the tasks call. Beyond it only `Timer.AloneLeaves` is stated.
- A budget is charged in whole milliseconds of the kernel clock; time within one millisecond is not modelled.
