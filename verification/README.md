# The worker pool, its shutdown, the mock endpoints and the request attributes, verified

A Dafny model of the concurrent core of the Evictor backend, with proofs.
`dafny verify dfyconfig.toml` checks everything.

## What is modelled

**The worker pool** (`PoolModel`, `PoolInvariant`, `PoolSafety`, `PoolProgress`,
`PoolTiming`, `PoolStuck`, `PoolTrace`, `PoolWitness`, `Counters`, `Pool`).
`PoolModel` is the pool as a state machine in which every lock operation, channel operation, atomic add, context read
and `stopping` read or write is a step of its own, for any number of submitters, any
number of workers, the drainer that competes with them and the coordinator. A run is any
list of actions; a blocked actor does not move; so "for every schedule" means every
interleaving. Both selects take either arm when both are ready. `Submit` sends the job
before it raises `accepted` and the queue depth, so a worker may already hold a job
that neither counts. The class `Pool` has the fields of the Go struct, one method for
each statement, and is proved to take exactly the steps of the state machine
(`Pool.Pool.RunSchedule`); whole calls of `Submit` and `Wait` are methods over it.
`PoolInvariant` is the inductive invariant, `PoolSafety` the safety theorems,
`PoolProgress` the measure, the absence of deadlock and completion, `PoolTiming` how long
a shutdown takes, `PoolStuck` what becomes of it when bodies and hooks never return, and `PoolTrace` what
the schedule alone tells of outcomes, late attempts and dates.

**The shutdown budget and the process** (`Shutdown`, `Process`). The observer that
anchors the deadline runs beside the pool; together they give the timed guarantee,
and `Process.ServeAPI` the meaning of the exit code.

**The mock endpoints** (`EndpointModel`, `EndpointHistory`, `Store`, `Handlers`).
The lazy `advance` loop is proved equal to a function, which is proved to be an
order-independent action of time, to agree with a simulator that looks at every
nanosecond, and to have a closed form over the invoke times. `Store` is the map of mutable
objects with a ghost log of calls.

**Request attributes** (`RequestAttrs`). The recursive filter and the bounded buffer.

### What the proofs take for granted

- A job body returns an error or nil, panics, or never returns; the dead-letter hook
  returns or never returns. `runtime.Goexit` in a job, which would end a worker and
  leave its job unsettled, and a panic in the hook are not among the steps.
- Atomic operations are sequentially consistent, and counters are unbounded integers.
- `context.WithCancel` and timers behave as documented; a timer arm is ready from its
  expiry on. Time passes by `Tick`. A schedule is *punctual* when no time passes while
  the coordinator itself has a statement to execute or waits for the mutex. So the upper
  bounds on time assume that whoever is inside a critical section (a few statements of
  `Submit` or `jobDequeued`, none of which can block) leaves it, and the coordinator gets the
  mutex, in no time. They assume nothing of job bodies and hooks. `PoolStuck` proves that
  punctual runs never get stuck on this: they can always be continued until `done`.
- strings.ToLower is any function on characters that does the usual to ASCII, maps U+212A
  and U+0130 into ASCII, and keeps every other character outside ASCII.
- In the model the pool object exists from the making of the budget on, so that a
  cancellation before pool.Start can be stated; before Start it does nothing by itself.

### What the proofs brought to light

- After `done`, `accepted == settled + JobsAbandoned` need not stay true: a job counted as
  abandoned may settle later and is then in both ledgers. It stays true in every continuation
  if and only if nothing was recorded abandoned (`PoolStuck.LedgersBalancedForGood`), for any
  options there is a run in which it does not (`PoolWitness.AbandonedMaySettle`), and
  `PoolSafety.LedgersAfterDone` says by how much it is off. At the accounting instant it
  always holds.
- `Wait` may report the expired context although the pool is done, when both arms of its
  select are ready; the exit code is then 1 with nothing lost
  (`Process.FailureWithNothingLost`). With the pool done, the code is sure to be 0 if and only if
  the deadline has not passed (`Process.ZeroForEitherArm`). In a timely shutdown this is the
  only way an expiry is reported (`Process.TimelyWait`).
- The bound on the distance of the two observations of the cancellation is exact: a
  punctual run can miss the deadline if and only if the pool saw the cancellation later than
  the slack allows (`PoolWitness.MarginIsTight`).
- A Status call whose clock is ahead of calls that come after it can change what they see.
  `EndpointHistory.PollsUnnoticed` says exactly when it does, for polls at any place in a
  history and everything that happens from a given time on (`EndpointModel.LookIsUnnoticed` is
  the condition for any endpoint). `EndpointHistory.PollingOutOfOrder` puts the condition for the next
  verdict in terms of the invoke times.

The comment in `request_context.go` says that attributes with protected keys are ignored; the code also
ignores those with an empty key, those of kind Any, and groups with such a member. The
model follows the code.

## Model

The branching statements of the pool come last. Its statements that are one assignment, the
counters and the callbacks of the store have no rows: the contracts of `Pool.Pool.Perform` and of the
store's methods rest on theirs.

| member | source | states |
|---|---|---|
| PoolModel.Clamp | backend/internal/workers/pool.go:58-87 | the options a pool runs with are all positive, and valid options are not changed |
| PoolInvariant.ActorEffectOk | backend/internal/workers/pool.go:199-241 | each statement of a worker or the drainer, from a hand that agrees with its job's record, leads to one that agrees with the new record, and moves the counters by what the record gained |
| PoolInvariant.JobStepInv | backend/internal/workers/pool.go:210-250 | a step of any actor that holds a job keeps the whole invariant |
| PoolInvariant.ReceiveInv | backend/internal/workers/pool.go:173-178 | a receive keeps the invariant, with workers and drainer competing for the closed channel, and even when the job's submitter has not counted it yet |
| PoolInvariant.SubmitInv | backend/internal/workers/pool.go:89-103 | each statement of `Submit` keeps the invariant; the capacity bound survives the send because the lock excludes a second pending job |
| PoolInvariant.ControlTable | backend/internal/workers/pool.go:123-153 | every statement of the coordinator, as a relation on what it writes |
| PoolInvariant.ControlStepInv | backend/internal/workers/pool.go:123-188 | each statement of the coordinator keeps the invariant, the accounting included |
| PoolInvariant.NothingHeld | backend/internal/workers/pool.go:117-145 | when all workers are gone and the drainer is absent or gone, the queue is empty and everything sent is settled |
| PoolInvariant.UnsettledCount | backend/internal/workers/pool.go:180-188 | the number of unsettled jobs is the difference of the two ledgers |
| PoolInvariant.StepInv | backend/internal/workers/pool.go:89-250 | every step of every goroutine keeps the invariant |
| PoolInvariant.RunInv | backend/internal/workers/pool.go:58-250 | the invariant holds in every state that any schedule reaches, for any options |
| PoolSafety.LedgerSafety | backend/internal/workers/pool.go:89-103 | always 0 <= settled <= accepted, 0 <= QueueDepth <= Capacity + Workers; and QueueDepth is the channel length when nobody is between a channel operation and its counting |
| PoolSafety.PendingIsVisible | backend/internal/workers/pool.go:210-214 | the job of a submitter that has not counted it is still queued, or has just been received and waits for the lock of `jobDequeued`; so the gauges never undercount by more than what is in sight |
| PoolSafety.CounterOrder | backend/internal/metrics/counters.go:27-33 | always deadLettered <= failed <= deadLettered + Workers + 1 and settled <= processed + deadLettered <= settled + Workers + 1; each counter is the sum over the jobs' histories |
| PoolSafety.ExactlyOnce | backend/internal/workers/pool.go:171-178 | the order of sends is the order of receives followed by the queue; each received job is in exactly one hand or settled, never both, never neither |
| PoolSafety.JobLife | backend/internal/workers/pool.go:216-241 | no job's record shows more than MaxAttempts attempts or two settlements; processed after failures and one success, or dead-lettered after failures only, and before cancellation after MaxAttempts of them (`PoolTrace.OutcomesTold` says what a failure is) |
| PoolSafety.DeadLetterHook | backend/internal/workers/pool.go:233-241 | the hook is called at most once for a job, never without an error, after exactly one JobFailed and one JobDeadLettered |
| PoolSafety.DrainedInTime | backend/internal/workers/pool.go:129-130 | a pool that drained before its timeout has settled every sent job, and dead-lettered only after exactly MaxAttempts failures |
| PoolSafety.LateAttempts | backend/internal/workers/pool.go:199-231 | after `cancelJobs` each worker starts at most one more attempt and the drainer none: at most Workers in all |
| PoolTrace.OutcomesTold | backend/internal/workers/pool.go:216-250 | over every run, with the outcomes of a job's bodies read off the schedule: its failures are those that did not return nil; it is counted processed only if the last one, and no other, returned nil, and dead-lettered only if none did; the hook gets the error of the last one, or the cancellation if none ran |
| PoolTrace.NilMeansAnswered | backend/internal/workers/pool.go:159-241 | if Wait returns nil through `done`, every accepted job had a body return nil, once and last, or failed every time and had the hook, if there is one, called once with its last error |
| PoolTrace.LateStartsBounded | backend/internal/workers/pool.go:199-231 | counted on the schedule: after `cancelJobs` each worker enters a body at most once, and the drainer never |
| PoolSafety.ChannelLifecycle | backend/internal/workers/pool.go:190-197 | no send on and no second close of the closed channel; stopping iff closed whenever the lock is free |
| PoolSafety.SubmitVerdict | backend/internal/workers/pool.go:92-102 | what held at the statement that fixed a verdict: stopping for ErrPoolStopped, a full open channel for ErrQueueFull, a sent job for nil |
| PoolSafety.AcceptedMeansSent | backend/internal/workers/pool.go:89-103 | a call returned nil iff its job was sent |
| PoolSafety.OthersKeepCallRun | backend/internal/workers/pool.go:90-91 | while a call holds the mutex nobody else moves it, sends, or changes `stopping`, and the queue only shrinks |
| PoolSafety.AcceptanceFrozen | backend/internal/workers/pool.go:190-197 | once the channel is closed `accepted` equals the number of sends and neither changes again |
| PoolSafety.WaitNilMeansDrained | backend/internal/workers/pool.go:159-165 | Wait returns nil through `done` only if every accepted job was settled exactly once and accepted == settled == processed + deadLettered, on all three exits |
| PoolSafety.AbandonmentExact | backend/internal/workers/pool.go:180-188 | at `done` the recorded count, the metric and the number of accepted jobs unsettled at the load of `settled` are equal and at most Capacity + Workers; Wait reports ErrDrainIncomplete iff it is positive |
| PoolSafety.LedgersAfterDone | backend/internal/workers/pool.go:157-188 | after `done`, settled + abandoned exceeds accepted by exactly the number of lost jobs that have settled since |
| PoolSafety.AccountingOnce | backend/internal/workers/pool.go:145-152 | after the accounting nothing that any goroutine does changes it |
| PoolSafety.RecordedOnce | backend/internal/workers/pool.go:180-188 | from the accounting of a run on, no schedule changes what was accepted, lost or recorded: it is recorded at most once |
| PoolProgress.InternalStepDecreases | backend/internal/workers/pool.go:105-241 | every step of the pool's own goroutines, and of a submitter inside `Submit`, decreases a natural number |
| PoolProgress.StepsBounded | backend/internal/workers/pool.go:89-241 | the number of such steps in any run is at most the initial measure plus a constant for each call of `Submit` |
| PoolProgress.NoDeadlock | backend/internal/workers/pool.go:105-155 | after Start and cancellation, a reachable state where nobody outside job bodies and hooks can move is the completed one, or somebody is inside a body or hook |
| PoolProgress.EveryRunSettles | backend/internal/workers/pool.go:89-241 | with or without a shutdown: if bodies and hooks return, a started pool's own steps in any order are at most Measure many and end with everything accepted settled and every call returned |
| PoolProgress.EveryRunCompletes | backend/internal/workers/pool.go:105-241 | if bodies and hooks return, the pool's own steps in any order are at most Measure many and end with every job settled, all calls returned and `done` closed |
| PoolProgress.CompletionReachable | backend/internal/workers/pool.go:105-241 | from every reachable state there is such a run |
| PoolTiming.NextIsTimely | backend/internal/workers/pool.go:127-148 | each statement of the coordinator keeps the time bounds of its position, from above and from below |
| PoolTiming.FullDrainTime | backend/internal/workers/pool.go:127-143 | no attempt is cut short before the whole drain timeout has passed, and no job given up before the unwind window has passed too |
| PoolTiming.ShutdownBound | backend/internal/workers/pool.go:123-152 | no punctual run goes past the drain timeout and the unwind window after the observed cancellation before `done` is closed, and `done` was not closed later |
| PoolTrace.SeenIsDated | backend/internal/workers/pool.go:124 | the time from which a shutdown is measured is that of the step that saw the cancellation |
| PoolTrace.DoneIsDated | backend/internal/workers/pool.go:152 | the time up to which it is measured is that of the step that closed `done` |
| PoolStuck.DoneAnyway | backend/internal/workers/pool.go:123-152 | from every state after Start and cancellation a punctual run, in which no body or hook returns and nobody submits, closes `done` in at most twice Measure steps |
| PoolStuck.RestIsDoneAnyway | backend/internal/workers/pool.go:132-152 | in every run: when nobody outside bodies and hooks can move and the current timer has expired, `done` is closed |
| PoolStuck.DoneInTime | backend/internal/workers/pool.go:123-152 | every punctual run after Start and cancellation can be continued, without the return of any body or hook, to one that is done within the drain timeout and the unwind window |
| PoolStuck.StuckIsReported | backend/internal/workers/pool.go:145-165 | with a job stuck in its body or the hook the pool still gets done; the job is counted lost and Wait reports ErrDrainIncomplete |
| PoolStuck.BacklogIsCleared | backend/internal/workers/pool.go:132-142 | a stuck job does not bury the rest: at rest, once the drainer runs and is not itself stuck in the hook, nothing is queued and every accepted job is settled except those inside a body or hook |
| PoolStuck.LedgersBalancedForGood | backend/internal/workers/pool.go:159-188 | after `done`, settled + abandoned == accepted in every continuation iff nothing was recorded abandoned, that is iff Wait returns nil |
| PoolWitness.AbandonedMaySettle | backend/internal/workers/pool.go:145-152 | for all options, a run with one accepted job that ends in both ledgers: settled 1 and abandoned 1 |
| PoolWitness.MarginIsTight | backend/internal/app/process.go:21 | for all options, some punctual run misses the deadline iff the gap between the two observations exceeds the slack |
| Pool.Pool.constructor | backend/internal/workers/pool.go:58-87 | a new pool is the initial state with clamped options, and satisfies the invariant |
| Pool.Pool.Perform | backend/internal/workers/pool.go:39-56 | one scheduling decision on the object is one step of the state machine and keeps the invariant |
| Pool.Pool.RunSchedule | backend/internal/workers/pool.go:105-155 | the object under any schedule is the machine's run |
| Pool.Pool.Submit | backend/internal/workers/pool.go:89-103 | a whole call with anything interleaved before each statement: the end state is that run from the state before; nil iff the job was sent, ErrPoolStopped iff stopping at its return, ErrQueueFull only if the channel held Capacity jobs in the state of that run in which it was tried; only the mutex can keep it waiting |
| Pool.Pool.Wait | backend/internal/workers/pool.go:159-169 | which result, for every state, deadline and ready arm; nil or ErrDrainIncomplete only when done and everything is accounted for |
| Shutdown.ShutdownBudget.ObserveCancellation | backend/internal/app/shutdown.go:36-40 | the observer anchors the end once |
| Shutdown.ShutdownBudget.Deadline | backend/internal/app/shutdown.go:50-56 | the budget starts now before the cancellation, waits for the observer after it, then is the anchored end |
| Shutdown.PoolIsIndependent | backend/internal/app/process.go:94-103 | the pool beside the budget runs as it would alone |
| Shutdown.OneDeadline | backend/internal/app/shutdown.go:36-56 | after the cancellation there is one deadline, whoever asks and however late |
| Shutdown.DoneByDeadline | backend/internal/app/process.go:119-121 | if the pool saw the cancellation at most the slack after the budget (margin less unwind window, for a positive timeout), no punctual run passes the anchored deadline before `done` is closed |
| Shutdown.DeadlineIsMet | backend/internal/app/process.go:119-121 | under the same assumptions every run can be continued, without the return of any body or hook, until `done` is closed, by the deadline |
| Shutdown.ExpiryNeverAlone | backend/internal/app/shutdown.go:44-56 | a deadline read after the cancellation never expires while the pool still drains, under the same assumptions taken strictly |
| Process.AwaitDeadline | backend/internal/app/shutdown.go:50-56 | the parent context is read, then, any events later, the clock or the observer's anchor; None while the observer is not ready |
| Process.AwaitPool | backend/internal/app/process.go:119-131 | the deadline, then Wait: system, result and exit code of the specification |
| Process.ServeAPI | backend/internal/app/process.go:87-132 | the whole role, with arbitrary events before and after pool.Start: the state, the result of Wait and the exit code are those of `Served`, which `ExitCodeMeans` explains |
| Process.PoolIsStarted | backend/internal/app/process.go:94-118 | whatever comes before and after, the pool has been started, also when listening or serving fails |
| Process.EndingSpelled | backend/internal/app/process.go:87-132 | what happened in a process that served and knew its deadline, as one run from the new pool and budget |
| Process.DeadlineMeans | backend/internal/app/shutdown.go:50-56 | the deadline is the clock plus timeout and 1 s if the parent was found running, else the anchored one, once the observer is ready |
| Process.CanEndWell | backend/internal/app/process.go:119-131 | a process that found the cancellation with its observer ready can always end with its pool done and exit code 0, however many jobs are stuck |
| Process.ExitCodeMeans | backend/internal/app/process.go:115-131 | in every run: code 0 only through `done` with every accepted job settled or counted as abandoned; code 1 iff listening, serving or the deadline failed; still waiting iff the pool is not done and the deadline not reached or not known |
| Process.ZeroForEitherArm | backend/internal/workers/pool.go:159-169 | once the pool is done, the exit code is 0 whichever ready arm Wait takes iff the deadline has not passed |
| Process.FailureWithNothingLost | backend/internal/app/process.go:126-128 | for all options, a run with exit code 1 in which the pool is done and nothing was lost |
| Process.TimelyWait | backend/internal/app/process.go:115-129 | in a timely shutdown an expired Wait is possible only when the pool was done before the deadline |
| EndpointModel.Advance | backend/internal/mockprovider/state.go:108-139 | no transition is due afterwards; identity, minimum, last invoke and scenario are untouched |
| EndpointModel.AdvanceSpelled | backend/internal/mockprovider/state.go:114-139 | for any endpoint and time, with the two durations spelled out: what is due and how it is dated, both transitions at once included, and no idling with a positive WorkersMin |
| EndpointModel.AdvanceTwice | backend/internal/mockprovider/state.go:114-139 | advancing to two times in any order is advancing to the later one, for any endpoint |
| EndpointModel.LooksCollapse | backend/internal/mockprovider/state.go:57-61 | any number of looks in any order equal one at the latest time |
| EndpointModel.LookIsUnnoticed | backend/internal/mockprovider/state.go:57-61 | for any endpoint and two times: a look at `t` changes nothing that is seen from `now` on iff it was not ahead of `now`, or no transition was due by then that is not due at `now` |
| EndpointModel.JumpIsSimulation | backend/internal/mockprovider/state.go:108-113 | one jump equals a simulator that looks at every instant and makes at most one transition at each |
| EndpointModel.JumpIsSimulationExactly | backend/internal/mockprovider/state.go:114-139 | they agree at all times iff the warm-up ends before the idle timeout would, which every history in time order gives |
| EndpointHistory.BurstStartUnique | backend/internal/mockprovider/state.go:126-133 | the burst start is the one index that begins a suffix of invokes with gaps below the idle timeout and cannot be moved back |
| EndpointHistory.InvokeExtends | backend/internal/mockprovider/state.go:63-72 | one more invoke, on the closed form |
| EndpointHistory.ClosedFormHolds | backend/internal/mockprovider/state.go:57-72 | after any calls in time order, the whole state at any later time is the closed form of the invoke times |
| EndpointHistory.WarmExactlyWhen | backend/internal/mockprovider/handlers.go:67-73 | an invoke is warm iff the last invoke is less than 5 minutes ago and the burst it belongs to is at least 8 s old |
| EndpointHistory.PollingTransparent | backend/internal/mockprovider/state.go:42-61 | Status, Get and SetScenario calls in time order change no later verdict and no later worker; the date of the last transition only if there was no invoke yet |
| EndpointHistory.PollsUnnoticed | backend/internal/mockprovider/state.go:57-72 | polls at any place in any history, with no order of times assumed, change nothing that any calls from `now` on return or leave, iff the latest poll is unnoticed in that sense |
| EndpointHistory.PollingOutOfOrder | backend/internal/mockprovider/state.go:57-72 | the same on invoke times, for the next verdict after an ordered history and polls in any order: kept iff the latest poll is harmless, a condition on the last burst and the two times |
| EndpointHistory.OutOfOrderPollingShows | backend/internal/mockprovider/handlers.go:59-67 | one such history: a Status with a later clock turns a warm invoke cold |
| EndpointHistory.RunWellFormed | backend/internal/mockprovider/state.go:21-29 | in time order the worker count is 1 exactly when warm, and the last transition never moves back nor passes the clock |
| EndpointHistory.LookIsSimulation | backend/internal/mockprovider/state.go:108-139 | after any calls in time order, a look equals the every-instant simulation from the last call on |
| Store.StoreIsProduct | backend/internal/mockprovider/state.go:74-106 | the store after any calls and resets is, id by id, the run of that id's own calls since the last reset |
| Store.StatusShows | backend/internal/mockprovider/state.go:57-61 | what Status returns after calls in time order is the closed form over the invokes of that id |
| Store.InvokeShows | backend/internal/mockprovider/state.go:63-72 | what Invoke returns after calls in time order is the closed form with this invoke as the last one |
| Store.EndpointState.Resolve | backend/internal/mockprovider/state.go:114-139 | the loop is `Advance` |
| Store.EndpointState.MarkInvoked | backend/internal/mockprovider/state.go:63-72 | the function that Invoke runs under the lock |
| Store.Store.GetOrCreate | backend/internal/mockprovider/state.go:86-99 | the stored object of the id, created cold on first use; no other id changes |
| Store.Store.Get | backend/internal/mockprovider/state.go:42-47 | a snapshot that resolves no transition: an endpoint that exists is returned as it is and the store is as before, a new one is cold since now |
| Store.Store.SetScenario | backend/internal/mockprovider/state.go:51-55 | replaces the scenario of one endpoint and nothing else of it or of the store |
| Store.Store.Status | backend/internal/mockprovider/state.go:57-61 | resolves and returns one endpoint, the closed form if the calls came in time order; the store stays the replay of its log |
| Store.Store.Invoke | backend/internal/mockprovider/state.go:63-72 | resolves, wakes and stamps one endpoint and returns it, the closed form if the calls came in time order; the store stays the replay of its log |
| Store.Store.Reset | backend/internal/mockprovider/state.go:101-106 | the empty store |
| Handlers.HandleInvoke | backend/internal/mockprovider/handlers.go:56-81 | with any calls of other handlers between its Get and its Invoke: it fails iff the last scenario set has a failure that is not over, with that failure, and then does not invoke; otherwise the verdict is warm iff the last burst is alive and older than a cold start, with 8000 or 120 ms |
| Handlers.FailsExactly | backend/internal/mockprovider/scenario.go:51-66 | requests fail exactly at the times before the end of the last scenario set, if it fails at all; never if none was set |
| Handlers.VerdictOf | backend/internal/mockprovider/handlers.go:67-73 | what the handler's Invoke reports after any calls of the store, and when it is warm |
| Handlers.GetIsInert | backend/internal/mockprovider/handlers.go:61 | the handler's own Get changes no verdict |
| RequestAttrs.NormalizeIdentifies | backend/internal/api/middleware/request_context.go:69 | for any lower-casing, two keys are treated alike iff they differ in case, of any alphabet, and separators only |
| RequestAttrs.SafeKeySpellsNoProtected | backend/internal/api/middleware/request_context.go:69-75 | a key is refused iff it is empty or spells a protected key in some case and with some separators |
| RequestAttrs.ProtectedRefused | backend/internal/api/middleware/request_context.go:69-75 | every spelling of a protected key, with any capitals of ASCII and any separators, is refused |
| RequestAttrs.OneLetterLowered | backend/internal/api/middleware/request_context.go:69 | turning one capital of ASCII into its lower case changes no verdict |
| RequestAttrs.ProtectedNames | backend/internal/api/middleware/request_context.go:13-29 | which keys are protected |
| RequestAttrs.SafeMeansHarmlessEverywhere | backend/internal/api/middleware/request_context.go:68-89 | the filter accepts a tree iff at every path in it the key is safe and the value is not opaque |
| RequestAttrs.VerdictIgnoresSpelling | backend/internal/api/middleware/request_context.go:69-75 | no re-casing, in any alphabet, and no exchange of separators in any key of a tree changes the verdict |
| RequestAttrs.TreeIgnoresSpelling | backend/internal/api/middleware/request_context.go:68-89 | no change of ASCII capitals or separators in any key of a tree changes the verdict |
| RequestAttrs.SafeOnesInOrder | backend/internal/api/middleware/request_context.go:57-65 | what the filter lets through is all safe attributes, each in its place, and nothing else |
| RequestAttrs.BufferKeepsFirstSafe | backend/internal/api/middleware/request_context.go:48-66 | any sequence of calls leaves the first 16 safe ones of everything offered, however it is split over calls |
| RequestAttrs.StoredStays | backend/internal/api/middleware/request_context.go:10-11 | what is stored is the first 16 safe attributes, or all if there are fewer, and a prefix of what is stored later |
| RequestAttrs.RequestContext.Add | backend/internal/api/middleware/request_context.go:54-65 | the loop with its early return leaves the first 16 safe ones of everything offered so far |
| RequestAttrs.RequestContext.Attributes | backend/internal/api/middleware/request_context.go:91-96 | what is returned is those first 16 |
| RequestAttrs.AddAttrs | backend/internal/api/middleware/request_context.go:48-52 | outside a request nothing happens; inside, the call is one `Add` |
| Pool.Pool.TrySend | backend/internal/workers/pool.go:95-102 | the select on the channel: the send, or the full queue, as the machine's step |
| Pool.Pool.Receive | backend/internal/workers/pool.go:200 | the receive of the range loop, or its end on the closed empty channel |
| Pool.Pool.CheckContext | backend/internal/workers/pool.go:202-205 | the branch on the execution context in a worker, and the drainer's unconditional dead letter |
| Pool.Pool.BeginAttempt | backend/internal/workers/pool.go:218-230 | the head of the attempt loop and its exhausted exit |
| Pool.Pool.CheckAfterFailure | backend/internal/workers/pool.go:226-228 | a failed attempt is the last one once the context is cancelled |
| Pool.Pool.ReturnFromBody | backend/internal/workers/pool.go:243-250 | a body that returns nil leads to success, and an error or a recovered panic to a failed attempt with that error |
| Pool.Pool.CallDeadLetter | backend/internal/workers/pool.go:237-239 | the hook if there is one |
| Pool.Pool.Settle | backend/internal/workers/pool.go:222-240 | the one raise of `settled`, after a success and after a dead letter |
| Pool.Pool.Start | backend/internal/workers/pool.go:105-115 | once only: the workers go to the channel and the coordinator waits for the cancellation |
| Pool.Pool.SetStopping | backend/internal/workers/pool.go:192-195 | `stopping` is set, and the channel is still to be closed, only the first time |
| Pool.Pool.CloseJobs | backend/internal/workers/pool.go:194 | the close, which would panic on a closed channel |
| Pool.Pool.Select | backend/internal/workers/pool.go:129-148 | both selects, either arm when both are ready |
| Pool.Pool.LoadSettled | backend/internal/workers/pool.go:181-184 | the second load, the difference, and the early return |

## Left out

- HTTP servers, routing, JSON, logging, signals, the listener and `services.Serve`: plumbing; listening and serving appear as two choices of the environment with arbitrary events of the pool in between.
- `Process.Run` before `serveAPI` (configuration, database, role): one-branch facts. The shutdown timeout it passes on is the constant 15 s of `backend/internal/config/config.go:92`, which is not replaced by the pool; `Shutdown.Slack` covers every other value too.
- `backend/internal/storage`, the migrations, configuration parsing, identifiers, redaction wrappers, the frontend, the scripts.
- `runtime.Goexit` inside a job, and panics inside the dead-letter hook: see the assumptions above.
- 64-bit wrap-around of the counters and overflow of Go times and durations.
- `Counters.Snapshot` and `SetQueueDepth`: a snapshot loads each counter separately, so the counter relations are stated over the state itself; the pool never sets the depth.
- Goroutines are positions in `Pool.actors` and `Pool.calls` rather than threads: the object is driven by an explicit schedule of atomic steps.
- Store.Store.Get: arbitrary callbacks of `Update` and changes of WorkersMin during a run are not modelled; WorkersMin is 0 in every endpoint a store creates.
- Handlers.HandleInvoke: the delay of a scenario, the headers of a failure and the request id are not modelled.
- RequestAttrs.VerdictIgnoresSpelling: takes attribute values as already resolved by `slog.LogValuer`.
- The locks of `Store` and of the request context: their methods are whole critical sections, so any order of lock acquisitions is an order of calls.
