/**
  The worker pool as a state machine. One action is one atomic step of the
  program: one lock operation, one channel operation, one atomic add, one read
  of a context, one return of a job body or of the dead-letter hook. A run is
  any list of actions; `Exec` skips an action whose actor is blocked, so lists
  of actions range over exactly the interleavings.
*/
module PoolModel {
  import opened Basics

  /** A job is named by the position of the `Submit` call that offered it. */
  type JobId = nat

  datatype Error = JobError(code: int) | JobPanic(code: int) | ContextCanceled

  /** How one attempt of a job body ends; a body may also never return. */
  datatype Outcome = Succeeds | Fails(code: int) | Panics(code: int)

  const UNWIND_WINDOW: int := 100 * MILLISECOND
  const DEFAULT_DRAIN_TIMEOUT: int := 15 * SECOND

  datatype Options = Options(workers: int, capacity: int, maxAttempts: int, drainTimeout: int, hasHook: bool)

  /** Every limit that is not positive is replaced by a default. */
  function Clamp(o: Options): (r: Options)
    ensures ValidOptions(r)
    ensures ValidOptions(o) ==> r == o
  {
    Options(
      if o.workers <= 0 then 1 else o.workers,
      if o.capacity <= 0 then 1 else o.capacity,
      if o.maxAttempts <= 0 then 1 else o.maxAttempts,
      if o.drainTimeout <= 0 then DEFAULT_DRAIN_TIMEOUT else o.drainTimeout,
      o.hasHook)
  }

  /** Each limit by itself: kept when it is positive, and otherwise 1, or 15 s for the drain timeout. */
  lemma ClampedFields(o: Options)
    ensures var r := Clamp(o);
            && (if o.workers > 0 then r.workers == o.workers else r.workers == 1)
            && (if o.capacity > 0 then r.capacity == o.capacity else r.capacity == 1)
            && (if o.maxAttempts > 0 then r.maxAttempts == o.maxAttempts else r.maxAttempts == 1)
            && (if o.drainTimeout > 0 then r.drainTimeout == o.drainTimeout else r.drainTimeout == 15_000_000_000)
            && r.hasHook == o.hasHook && Clamp(r) == r
  {
  }

  predicate ValidOptions(o: Options) {
    o.workers > 0 && o.capacity > 0 && o.maxAttempts > 0 && o.drainTimeout > 0
  }

  // ---------- program counters ----------

  datatype Verdict = Accepted | PoolStopped | QueueFull

  /** Where one call of `Submit` stands. */
  datatype Call =
    | Waiting                      // about to lock
    | Inspecting                   // holds the lock, about to read `stopping`
    | Sending                      // about to try the channel
    | Sent                         // the job is in the channel, `accepted` not yet raised
    | Counted                      // `accepted` raised, queue depth not yet
    | Returning(verdict: Verdict)  // about to unlock
    | Returned(verdict: Verdict)

  /** Where one worker, or the drainer, stands. */
  datatype Actor =
    | Unstarted
    | Receiving                                             // at the range over the channel
    | Received(job: JobId)                                  // about to lock in jobDequeued
    | Locked(job: JobId)                                    // about to lower the queue depth
    | Lowered(job: JobId)                                   // about to unlock
    | Checking(job: JobId)                                  // about to read the execution context
    | Looping(job: JobId, attempt: nat, last: Option<Error>)  // at the head of the attempt loop
    | Running(job: JobId, attempt: nat)                     // inside the job body
    | Succeeded(job: JobId)                                 // about to count the job processed
    | Processed(job: JobId)                                 // counted, about to raise `settled`
    | Failed(job: JobId, attempt: nat, error: Error)        // about to read the context again
    | Condemned(job: JobId, cause: Option<Error>)           // entering recordDeadLetter
    | FailureCounted(job: JobId, cause: Option<Error>)
    | DeathCounted(job: JobId, cause: Option<Error>)
    | Hooked(job: JobId, cause: Option<Error>)              // inside the dead-letter hook
    | Settling(job: JobId)                                  // about to raise `settled`
    | Exited
  {
    predicate HasJob() {
      !Unstarted? && !Receiving? && !Exited?
    }
    predicate HoldsLock() {
      Locked? || Lowered?
    }
  }

  /** Where the coordinator goroutine stands. */
  datatype Coordinator =
    | Dormant                     // Start has not been called
    | AwaitingCancel
    | Acquiring                   // stopAccepting: about to lock
    | InspectingStop
    | Closing                     // `stopping` set, channel still open
    | Unlocking
    | ArmingDrain                 // about to create the drain timer
    | DrainSelect
    | Cancelling
    | Spawning                    // about to start the drainer
    | ArmingUnwind
    | UnwindSelect
    | LoadingAccepted
    | LoadingSettled(accepted: int)
    | StoringAbandoned(count: int)
    | CountingAbandoned(count: int)
    | FinalCancel
    | ClosingDone
    | Finished
  {
    /** Position along the shutdown path. */
    function Stage(): nat {
      match this
      case Dormant => 0
      case AwaitingCancel => 1
      case Acquiring => 2
      case InspectingStop => 3
      case Closing => 4
      case Unlocking => 5
      case ArmingDrain => 6
      case DrainSelect => 7
      case Cancelling => 8
      case Spawning => 9
      case ArmingUnwind => 10
      case UnwindSelect => 11
      case LoadingAccepted => 12
      case LoadingSettled(_) => 13
      case StoringAbandoned(_) => 14
      case CountingAbandoned(_) => 15
      case FinalCancel => 16
      case ClosingDone => 17
      case Finished => 18
    }
    predicate HoldsLock() {
      InspectingStop? || Closing? || Unlocking?
    }
  }

  datatype Holder = Free | HeldByCall(job: JobId) | HeldByActor(actor: nat) | HeldByCoordinator

  /** Which of the three ways the coordinator left its selects. */
  datatype Exit = NoExit | WorkersFinished | Unwound | TimedOut

  // ---------- state ----------

  datatype Metrics = Metrics(queueDepth: int, processed: int, failed: int, deadLettered: int, abandoned: int)

  datatype Place = Unsent | Queued | InHand(actor: nat) | Settled

  /** Everything that has happened to one job. */
  datatype Record = Record(
    place: Place,
    attempts: nat,               // attempts started
    failures: nat,               // attempts that returned an error or panicked
    processed: nat,              // times JobProcessed was counted for it
    failed: nat,                 // times JobFailed was counted for it
    dead: nat,                   // times JobDeadLettered was counted for it
    hooks: seq<Option<Error>>,   // errors passed to the dead-letter hook
    settles: nat,                // times `settled` was raised for it
    cut: bool)                   // its attempts were cut short by cancellation

  const NEW_RECORD: Record := Record(Unsent, 0, 0, 0, 0, 0, [], 0, false)

  /** What the coordinator writes. */
  datatype Control = Control(
    coordinator: Coordinator,
    stopping: bool,
    closed: bool,                // the job channel
    cancelled: bool,             // the execution context
    abandoned: int,
    timer: int,                  // expiry of the current timer
    done: bool,
    // history of the shutdown, read by no step
    exit: Exit,
    lost: set<JobId>,            // sent jobs unsettled at the accounting instant
    settledThen: set<JobId>,     // jobs settled at the accounting instant
    observedAt: int,             // when the cancellation was seen
    doneAt: int)                 // when `done` was closed

  /** History of the jobs, read by no step. */
  datatype History = History(
    sent: seq<JobId>,            // order of channel sends
    received: seq<JobId>,        // order of channel receives
    settledOrder: seq<JobId>,    // order of raises of `settled`
    jobs: seq<Record>,           // one record for each call of Submit
    late: seq<nat>)              // attempts each actor started after cancelJobs

  datatype State = State(
    options: Options,
    queue: seq<JobId>,
    lock: Holder,
    accepted: int,
    settled: int,
    metrics: Metrics,
    control: Control,
    started: bool,
    parentDone: bool,
    workersDone: bool,           // closed once all workers are done
    drained: bool,               // the coordinator's inner `settled` channel
    panicked: bool,              // send on, or close of, a closed channel
    now: int,
    calls: seq<Call>,
    actors: seq<Actor>,          // the workers, then the drainer
    history: History)

  function Init(o: Options, now: int): State
    requires ValidOptions(o)
  {
    State(o, [], Free, 0, 0, Metrics(0, 0, 0, 0, 0),
          Control(Dormant, false, false, false, 0, now, false, NoExit, {}, {}, now, now),
          false, false, false, false, false, now,
          [], seq(o.workers + 1, _ => Unstarted),
          History([], [], [], [], seq(o.workers + 1, _ => 0)))
  }

  /** The shapes every state has; needed only to make steps well defined. */
  ghost predicate Shape(s: State) {
    && ValidOptions(s.options)
    && |s.actors| == |s.history.late| == s.options.workers + 1
    && |s.history.jobs| == |s.calls|
    && (forall k | 0 <= k < |s.queue| :: s.queue[k] < |s.calls|)
    && (forall i | 0 <= i < |s.actors| && s.actors[i].HasJob() :: s.actors[i].job < |s.calls|)
  }

  /** The drainer is the last actor. */
  function Drainer(s: State): int {
    s.options.workers
  }

  // ---------- effects of one step ----------

  datatype LockOp = KeepLock | TakeLock | DropLock

  function AfterLock(op: LockOp, me: Holder, lock: Holder): Holder {
    match op
    case KeepLock => lock
    case TakeLock => me
    case DropLock => Free
  }

  datatype CallEffect = CallEffect(next: Call, lock: LockOp, sends: bool, accepted: int, depth: int, panics: bool)

  /** Submit, one statement at a time. */
  function EffectOfCall(c: Call, stopping: bool, closed: bool, room: bool): CallEffect
    requires !c.Returned?
  {
    match c
    case Waiting => CallEffect(Inspecting, TakeLock, false, 0, 0, false)
    case Inspecting =>
      CallEffect(if stopping then Returning(PoolStopped) else Sending, KeepLock, false, 0, 0, false)
    case Sending =>
      if closed then CallEffect(Sending, KeepLock, false, 0, 0, true)
      else if room then CallEffect(Sent, KeepLock, true, 0, 0, false)
      else CallEffect(Returning(QueueFull), KeepLock, false, 0, 0, false)
    case Sent => CallEffect(Counted, KeepLock, false, 1, 0, false)
    case Counted => CallEffect(Returning(Accepted), KeepLock, false, 0, 1, false)
    case Returning(v) => CallEffect(Returned(v), DropLock, false, 0, 0, false)
  }

  /** What one step of an actor that holds a job does. */
  datatype Effect = Effect(
    next: Actor, record: Record, lock: LockOp,
    depth: int, processed: int, failed: int, dead: int, settled: int, late: nat)

  function Quiet(next: Actor, record: Record): Effect {
    Effect(next, record, KeepLock, 0, 0, 0, 0, 0, 0)
  }

  /** An actor holding a job that is neither inside the job body nor inside the hook. */
  predicate Busy(p: Actor) {
    p.HasJob() && !p.Running? && !p.Hooked?
  }

  /** jobDequeued, work, drainQueue, execute and recordDeadLetter, one statement at a time. */
  function EffectOfActor(o: Options, drainer: bool, cancelled: bool, p: Actor, r: Record): Effect
    requires Busy(p)
  {
    match p
    case Received(j) => Quiet(Locked(j), r).(lock := TakeLock)
    case Locked(j) => Quiet(Lowered(j), r).(depth := -1)
    case Lowered(j) => Quiet(Checking(j), r).(lock := DropLock)
    case Checking(j) =>
      if drainer || cancelled then
        Quiet(Condemned(j, if cancelled then Some(ContextCanceled) else None), r.(cut := true))
      else Quiet(Looping(j, 1, None), r)
    case Looping(j, k, last) =>
      if k <= o.maxAttempts then
        Quiet(Running(j, k), r.(attempts := r.attempts + 1)).(late := if cancelled then 1 else 0)
      else Quiet(Condemned(j, last), r)
    case Succeeded(j) => Quiet(Processed(j), r.(processed := r.processed + 1)).(processed := 1)
    case Failed(j, k, err) =>
      if cancelled then Quiet(Condemned(j, Some(err)), r.(cut := true))
      else Quiet(Looping(j, k + 1, Some(err)), r)
    case Condemned(j, cause) => Quiet(FailureCounted(j, cause), r.(failed := r.failed + 1)).(failed := 1)
    case FailureCounted(j, cause) => Quiet(DeathCounted(j, cause), r.(dead := r.dead + 1)).(dead := 1)
    case DeathCounted(j, cause) =>
      if o.hasHook then Quiet(Hooked(j, cause), r.(hooks := r.hooks + [cause])) else Quiet(Settling(j), r)
    case Processed(j) => Quiet(Receiving, r.(place := Settled, settles := r.settles + 1)).(settled := 1)
    case Settling(j) => Quiet(Receiving, r.(place := Settled, settles := r.settles + 1)).(settled := 1)
  }

  /** runJob: an error and a recovered panic both come back as an error. */
  function EffectOfReturn(j: JobId, k: nat, outcome: Outcome, r: Record): Effect {
    match outcome
    case Succeeds => Quiet(Succeeded(j), r)
    case Fails(code) => Quiet(Failed(j, k, JobError(code)), r.(failures := r.failures + 1))
    case Panics(code) => Quiet(Failed(j, k, JobPanic(code)), r.(failures := r.failures + 1))
  }

  /** The next control of the coordinator; the two sets only feed the history. */
  function NextControl(c: Control, arm: Arm, o: Options, now: int, accepted: int, settled: int,
                       lost: set<JobId>, settledThen: set<JobId>): Control
  {
    match c.coordinator
    case Dormant => c
    case AwaitingCancel => c.(coordinator := Acquiring, observedAt := now)
    case Acquiring => c.(coordinator := InspectingStop)
    case InspectingStop =>
      if c.stopping then c.(coordinator := Unlocking) else c.(coordinator := Closing, stopping := true)
    case Closing => c.(coordinator := Unlocking, closed := true)
    case Unlocking => c.(coordinator := ArmingDrain)
    case ArmingDrain => c.(coordinator := DrainSelect, timer := now + o.drainTimeout)
    case DrainSelect =>
      if arm.OnChannel? then Account(c, FinalCancel, WorkersFinished, lost, settledThen)
      else c.(coordinator := Cancelling)
    case Cancelling => c.(coordinator := Spawning, cancelled := true)
    case Spawning => c.(coordinator := ArmingUnwind)
    case ArmingUnwind => c.(coordinator := UnwindSelect, timer := now + UNWIND_WINDOW)
    case UnwindSelect =>
      if arm.OnChannel? then Account(c, FinalCancel, Unwound, lost, settledThen)
      else c.(coordinator := LoadingAccepted)
    case LoadingAccepted => c.(coordinator := LoadingSettled(accepted))
    case LoadingSettled(loaded) =>
      var count := loaded - settled;
      Account(c, if count <= 0 then FinalCancel else StoringAbandoned(count), TimedOut, lost, settledThen)
    case StoringAbandoned(count) => c.(coordinator := CountingAbandoned(count), abandoned := count)
    case CountingAbandoned(count) => c.(coordinator := FinalCancel)
    case FinalCancel => c.(coordinator := ClosingDone, cancelled := true)
    case ClosingDone => c.(coordinator := Finished, done := true, doneAt := now)
    case Finished => c
  }

  /** The accounting instant: what is lost and what is not is fixed here. */
  function Account(c: Control, next: Coordinator, exit: Exit, lost: set<JobId>, settledThen: set<JobId>): Control {
    c.(coordinator := next, exit := exit, lost := lost, settledThen := settledThen)
  }

  function UnsettledJobs(h: History): set<JobId> {
    set j | j in h.sent && j !in h.settledOrder
  }

  function SettledJobs(h: History): set<JobId> {
    set j | j in h.settledOrder
  }

  // ---------- actions ----------

  datatype Arm = OnChannel | OnTimer

  datatype Action =
    | Start
    | CancelParent
    | Tick(duration: nat)
    | CallSubmit
    | CallStep(job: JobId)
    | ActorStep(actor: nat)
    | BodyReturns(actor: nat, outcome: Outcome)
    | HookReturns(actor: nat)
    | CoordinatorStep(arm: Arm)
    | SignalWorkersDone
    | SignalDrained

  /** Actions of the pool's own goroutines and of submitters already inside a call. */
  predicate Internal(a: Action) {
    !(a.Start? || a.CancelParent? || a.Tick? || a.CallSubmit?)
  }

  predicate WorkersExited(s: State) {
    forall i | 0 <= i < |s.actors| && i != Drainer(s) :: s.actors[i].Exited?
  }

  predicate DrainerExited(s: State) {
    0 <= Drainer(s) < |s.actors| && s.actors[Drainer(s)].Exited?
  }

  predicate CallEnabled(s: State, c: Call) {
    match c
    case Waiting => s.lock.Free?
    case Returned(_) => false
    case _ => true
  }

  predicate ActorEnabled(s: State, p: Actor) {
    match p
    case Receiving => s.queue != [] || s.control.closed
    case Received(_) => s.lock.Free?
    case _ => Busy(p)
  }

  predicate CoordinatorEnabled(s: State, arm: Arm) {
    match s.control.coordinator
    case Dormant => false
    case Finished => false
    case AwaitingCancel => s.parentDone
    case Acquiring => s.lock.Free?
    case DrainSelect => if arm.OnChannel? then s.workersDone else s.now >= s.control.timer
    case UnwindSelect => if arm.OnChannel? then s.drained else s.now >= s.control.timer
    case _ => true
  }

  predicate Enabled(s: State, a: Action) {
    match a
    case Start => true
    case CancelParent => true
    case Tick(_) => true
    case CallSubmit => true
    case CallStep(j) => j < |s.calls| && CallEnabled(s, s.calls[j])
    case ActorStep(i) => i < |s.actors| && ActorEnabled(s, s.actors[i])
    case BodyReturns(i, _) => i < |s.actors| && s.actors[i].Running?
    case HookReturns(i) => i < |s.actors| && s.actors[i].Hooked?
    case CoordinatorStep(arm) => CoordinatorEnabled(s, arm)
    case SignalWorkersDone => s.started && WorkersExited(s) && !s.workersDone
    case SignalDrained => DrainerExited(s) && s.workersDone && !s.drained
  }

  // ---------- steps ----------

  function StepCall(s: State, j: JobId): State
    requires Shape(s) && j < |s.calls| && CallEnabled(s, s.calls[j])
  {
    var e := EffectOfCall(s.calls[j], s.control.stopping, s.control.closed, |s.queue| < s.options.capacity);
    s.(calls := s.calls[j := e.next],
       lock := AfterLock(e.lock, HeldByCall(j), s.lock),
       queue := if e.sends then s.queue + [j] else s.queue,
       accepted := s.accepted + e.accepted,
       metrics := s.metrics.(queueDepth := s.metrics.queueDepth + e.depth),
       panicked := s.panicked || e.panics,
       history := if e.sends then Send(s.history, j) else s.history)
  }

  function Send(h: History, j: JobId): History
    requires j < |h.jobs|
  {
    h.(sent := h.sent + [j], jobs := h.jobs[j := h.jobs[j].(place := Queued)])
  }

  /** An actor at the range over the channel takes a job, or leaves the loop. */
  function StepReceive(s: State, i: nat): State
    requires Shape(s) && i < |s.actors|
  {
    if s.queue == [] then s.(actors := s.actors[i := Exited])
    else
      var j := s.queue[0];
      var jobs := s.history.jobs[j := s.history.jobs[j].(place := InHand(i))];
      s.(queue := s.queue[1..],
         actors := s.actors[i := Received(j)],
         history := s.history.(received := s.history.received + [j], jobs := jobs))
  }

  function ApplyEffect(s: State, i: nat, e: Effect): State
    requires Shape(s) && i < |s.actors| && s.actors[i].HasJob()
  {
    var j := s.actors[i].job;
    s.(actors := s.actors[i := e.next],
       lock := AfterLock(e.lock, HeldByActor(i), s.lock),
       settled := s.settled + e.settled,
       metrics := s.metrics.(
         queueDepth := s.metrics.queueDepth + e.depth,
         processed := s.metrics.processed + e.processed,
         failed := s.metrics.failed + e.failed,
         deadLettered := s.metrics.deadLettered + e.dead),
       history := NoteEffect(s.history, i, j, e))
  }

  function NoteEffect(h: History, i: nat, j: JobId, e: Effect): History
    requires i < |h.late| && j < |h.jobs|
  {
    h.(jobs := h.jobs[j := e.record],
       late := h.late[i := h.late[i] + e.late],
       settledOrder := if e.settled > 0 then h.settledOrder + [j] else h.settledOrder)
  }

  /** The effect of the action by which the job-holding actor `i` moves. */
  function JobEffect(s: State, i: nat, a: Action): Effect
    requires Shape(s) && Enabled(s, a)
    requires MovesJob(s, i, a)
  {
    var p := s.actors[i];
    var r := s.history.jobs[p.job];
    match a
    case BodyReturns(_, outcome) => EffectOfReturn(p.job, p.attempt, outcome, r)
    case HookReturns(_) => Quiet(Settling(p.job), r)
    case ActorStep(_) => EffectOfActor(s.options, i == Drainer(s), s.control.cancelled, p, r)
  }

  /** `a` is a step by actor `i`, which holds a job. */
  predicate MovesJob(s: State, i: nat, a: Action) {
    i < |s.actors| && s.actors[i].HasJob() &&
    match a
    case BodyReturns(k, _) => k == i && s.actors[i].Running?
    case HookReturns(k) => k == i && s.actors[i].Hooked?
    case ActorStep(k) => k == i && Busy(s.actors[i])
    case _ => false
  }

  function StepCoordinator(s: State, arm: Arm): State
    requires Shape(s) && CoordinatorEnabled(s, arm)
  {
    ApplyControl(s, NextControl(s.control, arm, s.options, s.now, s.accepted, s.settled,
                                UnsettledJobs(s.history), SettledJobs(s.history)))
  }

  function ApplyControl(s: State, next: Control): State
    requires Shape(s)
  {
    var c := s.control.coordinator;
    s.(control := next,
       lock := if c.Acquiring? then HeldByCoordinator else if c.Unlocking? then Free else s.lock,
       metrics := s.metrics.(abandoned := s.metrics.abandoned + if c.CountingAbandoned? then c.count else 0),
       panicked := s.panicked || (c.Closing? && s.control.closed),
       actors := if c.Spawning? then s.actors[Drainer(s) := Receiving] else s.actors)
  }

  /** Start does its work once; the workers begin at the channel. */
  function StepStart(s: State): State
    requires Shape(s)
  {
    if s.started then s
    else
      s.(started := true,
         control := s.control.(coordinator := AwaitingCancel),
         actors := seq(s.options.workers, _ => Receiving) + [s.actors[Drainer(s)]])
  }

  function Step(s: State, a: Action): State
    requires Shape(s) && Enabled(s, a)
  {
    match a
    case Start => StepStart(s)
    case CancelParent => s.(parentDone := true)
    case Tick(d) => s.(now := s.now + d)
    case CallSubmit =>
      s.(calls := s.calls + [Waiting], history := s.history.(jobs := s.history.jobs + [NEW_RECORD]))
    case CallStep(j) => StepCall(s, j)
    case ActorStep(i) =>
      if s.actors[i].Receiving? then StepReceive(s, i) else ApplyEffect(s, i, JobEffect(s, i, a))
    case BodyReturns(i, _) => ApplyEffect(s, i, JobEffect(s, i, a))
    case HookReturns(i) => ApplyEffect(s, i, JobEffect(s, i, a))
    case CoordinatorStep(arm) => StepCoordinator(s, arm)
    case SignalWorkersDone => s.(workersDone := true)
    case SignalDrained => s.(drained := true)
  }

  lemma JobEffectShape(s: State, i: nat, a: Action)
    requires Shape(s) && Enabled(s, a) && MovesJob(s, i, a)
    ensures Shape(ApplyEffect(s, i, JobEffect(s, i, a)))
  {
    var e := JobEffect(s, i, a);
    assert e.next.HasJob() ==> e.next.job == s.actors[i].job;
  }

  lemma CallShape(s: State, j: JobId)
    requires Shape(s) && j < |s.calls| && CallEnabled(s, s.calls[j])
    ensures Shape(StepCall(s, j))
  {
  }

  lemma ReceiveShape(s: State, i: nat)
    requires Shape(s) && i < |s.actors|
    ensures Shape(StepReceive(s, i))
  {
    var t := StepReceive(s, i);
    assert t.actors == s.actors[i := t.actors[i]] && (t.actors[i].HasJob() ==> t.actors[i].job < |s.calls|);
    assert t.queue == (if s.queue == [] then [] else s.queue[1..]);
  }

  lemma CoordinatorShape(s: State, arm: Arm)
    requires Shape(s) && CoordinatorEnabled(s, arm)
    ensures Shape(StepCoordinator(s, arm))
  {
  }

  lemma StepShape(s: State, a: Action)
    requires Shape(s) && Enabled(s, a)
    ensures Shape(Step(s, a))
  {
    match a
    case CallStep(j) => CallShape(s, j);
    case ActorStep(i) => if s.actors[i].Receiving? { ReceiveShape(s, i); } else { JobEffectShape(s, i, a); }
    case BodyReturns(i, _) => JobEffectShape(s, i, a);
    case HookReturns(i) => JobEffectShape(s, i, a);
    case CoordinatorStep(arm) => CoordinatorShape(s, arm);
    case _ =>
  }

  /** One scheduling decision: a blocked actor does not move. */
  function Advance(s: State, a: Action): (t: State)
    requires Shape(s)
    ensures Shape(t)
  {
    if Enabled(s, a) then
      StepShape(s, a);
      Step(s, a)
    else s
  }

  function Exec(s: State, schedule: seq<Action>): (t: State)
    requires Shape(s)
    ensures Shape(t)
    decreases |schedule|
  {
    if schedule == [] then s else Exec(Advance(s, schedule[0]), schedule[1..])
  }

  /** The state a schedule leads to from a new pool. */
  function Run(o: Options, now: int, schedule: seq<Action>): (t: State)
    ensures Shape(t)
  {
    Exec(Init(Clamp(o), now), schedule)
  }

  /** What only the coordinator, Start, and the signals write. */
  predicate SameShell(s: State, t: State) {
    && t.options == s.options && t.control == s.control && t.now == s.now
    && t.started == s.started && t.parentDone == s.parentDone
    && t.metrics.abandoned == s.metrics.abandoned
  }

  lemma CallShell(s: State, j: JobId)
    requires Shape(s) && j < |s.calls| && CallEnabled(s, s.calls[j])
    ensures SameShell(s, StepCall(s, j))
  {
  }

  lemma ReceiveShell(s: State, i: nat)
    requires Shape(s) && i < |s.actors|
    ensures SameShell(s, StepReceive(s, i))
  {
  }

  lemma EffectShell(s: State, i: nat, e: Effect)
    requires Shape(s) && i < |s.actors| && s.actors[i].HasJob()
    ensures SameShell(s, ApplyEffect(s, i, e))
  {
  }

  lemma StepShell(s: State, a: Action)
    requires Shape(s) && Enabled(s, a)
    requires a.CallStep? || a.ActorStep? || a.BodyReturns? || a.HookReturns?
    ensures SameShell(s, Step(s, a))
  {
    match a
    case CallStep(j) => CallShell(s, j);
    case ActorStep(i) =>
      if s.actors[i].Receiving? { ReceiveShell(s, i); } else { EffectShell(s, i, JobEffect(s, i, a)); }
    case BodyReturns(i, _) => EffectShell(s, i, JobEffect(s, i, a));
    case HookReturns(i) => EffectShell(s, i, JobEffect(s, i, a));
  }

  /** The options never change. */
  lemma AdvanceOptions(s: State, a: Action)
    requires Shape(s)
    ensures Advance(s, a).options == s.options
  {
    if Enabled(s, a) && (a.CallStep? || a.ActorStep? || a.BodyReturns? || a.HookReturns?) {
      StepShell(s, a);
    }
  }

  /** The clock never goes back and a cancellation is never undone. */
  lemma AdvanceClock(s: State, a: Action)
    requires Shape(s)
    ensures Advance(s, a).now >= s.now
    ensures s.parentDone ==> Advance(s, a).parentDone
  {
    if Enabled(s, a) && (a.CallStep? || a.ActorStep? || a.BodyReturns? || a.HookReturns?) {
      StepShell(s, a);
    }
  }

  lemma StaysStarted(s: State, a: Action)
    requires Shape(s) && s.started
    ensures Advance(s, a).started
  {
  }

  lemma {:induction false} OptionsKept(s: State, schedule: seq<Action>)
    requires Shape(s)
    ensures Exec(s, schedule).options == s.options
    decreases |schedule|
  {
    if schedule != [] {
      AdvanceOptions(s, schedule[0]);
      OptionsKept(Advance(s, schedule[0]), schedule[1..]);
    }
  }

  lemma {:induction false} ExecConcat(s: State, before: seq<Action>, after: seq<Action>)
    requires Shape(s)
    ensures Exec(s, before + after) == Exec(Exec(s, before), after)
    decreases |before|
  {
    if before == [] {
      assert before + after == after;
    } else {
      assert (before + after)[1..] == before[1..] + after;
      ExecConcat(Advance(s, before[0]), before[1..], after);
    }
  }

  lemma ExecOneMore(s: State, gap: seq<Action>, a: Action)
    requires Shape(s)
    ensures Exec(s, gap + [a]) == Advance(Exec(s, gap), a)
  {
    ExecConcat(s, gap, [a]);
    assert [a][1..] == [];
    assert Exec(Exec(s, gap), [a]) == Exec(Advance(Exec(s, gap), a), []);
  }
}
