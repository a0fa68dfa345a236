/**
  The invariant of the worker pool: what holds in every state a schedule can
  lead to. It is stated in parts; each part says one thing about the protocol.
*/
module PoolInvariant {
  import opened Basics
  import opened Sums
  import opened PoolModel

  // ---------- the parts ----------

  predicate CallHolds(c: Call) {
    !c.Waiting? && !c.Returned?
  }

  /** Exactly the holder of the mutex is inside a critical section. */
  ghost predicate LockInv(s: State) {
    && (forall i | 0 <= i < |s.actors| :: s.actors[i].HoldsLock() <==> s.lock == HeldByActor(i))
    && (forall j | 0 <= j < |s.calls| :: CallHolds(s.calls[j]) <==> s.lock == HeldByCall(j))
    && (s.control.coordinator.HoldsLock() <==> s.lock == HeldByCoordinator)
    && (s.lock.HeldByActor? ==> s.lock.actor < |s.actors|)
    && (s.lock.HeldByCall? ==> s.lock.job < |s.calls|)
  }

  /** The flags the coordinator owns are functions of how far it has come. */
  ghost predicate ControlInv(c: Control) {
    var stage := c.coordinator.Stage();
    && (c.stopping <==> stage >= 4)
    && (c.closed <==> stage >= 5)
    && (c.cancelled <==> 9 <= stage && (stage == 16 ==> c.exit != WorkersFinished))
    && (c.done <==> stage == 18)
    && (c.exit == NoExit <==> stage < 14)
    && (stage == 14 || stage == 15 ==> c.exit == TimedOut && c.coordinator.count > 0)
    && (stage <= 14 ==> c.abandoned == 0)
    && (stage == 15 ==> c.abandoned == c.coordinator.count)
  }

  /** The drainer runs exactly from the spawning of it on. */
  predicate DrainerSpawned(c: Control) {
    c.coordinator.Stage() >= 10 && c.exit != WorkersFinished
  }

  predicate SendingCall(c: Call) {
    c.Sending? || c.Sent? || c.Counted?
  }

  ghost predicate PhaseInv(s: State)
    requires Shape(s)
  {
    && ControlInv(s.control)
    && !s.panicked
    && (s.started <==> s.control.coordinator.Stage() >= 1)
    && (s.control.coordinator.Stage() >= 2 ==> s.parentDone)
    && (s.actors[Drainer(s)].Unstarted? <==> !DrainerSpawned(s.control))
    && (forall i | 0 <= i < Drainer(s) :: s.actors[i].Unstarted? <==> !s.started)
    && (s.control.stopping ==> forall j | 0 <= j < |s.calls| :: !SendingCall(s.calls[j]))
    && (forall i | 0 <= i < |s.actors| :: s.actors[i].Exited? ==> s.control.closed && s.queue == [])
    && (s.workersDone ==> s.started && WorkersExited(s))
    && (s.drained ==> DrainerExited(s) && s.workersDone)
    && (s.control.exit == WorkersFinished ==> s.workersDone)
    && (s.control.exit == Unwound ==> s.drained)
  }

  /** Has this call put its job into the channel? */
  predicate HasSent(c: Call) {
    c.Sent? || c.Counted? || c == Returning(Accepted) || c == Returned(Accepted)
  }

  /** First in, first out: what was received, then what is queued, is what was sent. */
  ghost predicate FifoInv(h: History, queue: seq<JobId>) {
    h.sent == h.received + queue && Distinct(h.sent)
  }

  /** Every sent job is in exactly one place, and the places agree with the state. */
  ghost predicate PlaceInv(s: State)
    requires Shape(s)
  {
    var h := s.history;
    && FifoInv(h, s.queue)
    && Distinct(h.settledOrder)
    && |s.queue| <= s.options.capacity
    && (forall j | j in h.sent :: j < |h.jobs|)
    && (forall j | j in h.settledOrder :: j < |h.jobs|)
    && (forall j | 0 <= j < |h.jobs| ::
          && (h.jobs[j].place.Unsent? <==> j !in h.sent)
          && (h.jobs[j].place.Queued? <==> j in s.queue)
          && (h.jobs[j].place.Settled? <==> j in h.settledOrder)
          && (HasSent(s.calls[j]) <==> !h.jobs[j].place.Unsent?)
          && (h.jobs[j].place.InHand? ==> Holds(s, h.jobs[j].place.actor, j)))
  }

  predicate Holds(s: State, i: nat, j: JobId) {
    i < |s.actors| && s.actors[i].HasJob() && s.actors[i].job == j
  }

  // ---------- one job ----------

  predicate Unaccounted(r: Record) {
    r.processed == 0 && r.failed == 0 && r.dead == 0 && r.hooks == [] && r.settles == 0
  }

  predicate Fresh(r: Record) {
    Unaccounted(r) && r.attempts == 0 && r.failures == 0 && !r.cut
  }

  predicate HasSucceeded(o: Options, r: Record) {
    1 <= r.attempts <= o.maxAttempts && r.failures == r.attempts - 1 && !r.cut
  }

  /** Every attempt failed, and they stopped at the limit unless cancellation cut them short. */
  predicate HasFailed(o: Options, cancelled: bool, r: Record) {
    r.failures == r.attempts <= o.maxAttempts && if r.cut then cancelled else r.failures == o.maxAttempts
  }

  predicate HookDone(o: Options, r: Record) {
    if o.hasHook then |r.hooks| == 1 && r.hooks[0].Some? else r.hooks == []
  }

  /** The record of a job in the hand of an actor at `p`. */
  predicate HandOk(o: Options, cancelled: bool, p: Actor, r: Record)
    requires p.HasJob()
  {
    match p
    case Received(_) => Fresh(r)
    case Locked(_) => Fresh(r)
    case Lowered(_) => Fresh(r)
    case Checking(_) => Fresh(r)
    case Looping(_, k, last) =>
      Unaccounted(r) && !r.cut && 1 <= k <= o.maxAttempts + 1 && r.attempts == r.failures == k - 1
      && (last.Some? <==> k > 1)
    case Running(_, k) =>
      Unaccounted(r) && !r.cut && 1 <= k <= o.maxAttempts && r.attempts == k && r.failures == k - 1
    case Succeeded(_) => Unaccounted(r) && HasSucceeded(o, r)
    case Processed(_) =>
      r.processed == 1 && r.failed == 0 && r.dead == 0 && r.hooks == [] && r.settles == 0 && HasSucceeded(o, r)
    case Failed(_, k, _) =>
      Unaccounted(r) && !r.cut && 1 <= k <= o.maxAttempts && r.attempts == r.failures == k
    case Condemned(_, cause) => Unaccounted(r) && HasFailed(o, cancelled, r) && cause.Some?
    case FailureCounted(_, cause) =>
      r.processed == 0 && r.failed == 1 && r.dead == 0 && r.hooks == [] && r.settles == 0
      && HasFailed(o, cancelled, r) && cause.Some?
    case DeathCounted(_, cause) =>
      r.processed == 0 && r.failed == 1 && r.dead == 1 && r.hooks == [] && r.settles == 0
      && HasFailed(o, cancelled, r) && cause.Some?
    case Hooked(_, cause) =>
      r.processed == 0 && r.failed == 1 && r.dead == 1 && r.hooks == [cause] && r.settles == 0
      && HasFailed(o, cancelled, r) && cause.Some? && o.hasHook
    case Settling(_) =>
      r.processed == 0 && r.failed == 1 && r.dead == 1 && HookDone(o, r) && r.settles == 0 && HasFailed(o, cancelled, r)
  }

  predicate SettledAsProcessed(o: Options, r: Record) {
    r.processed == 1 && r.failed == 0 && r.dead == 0 && r.hooks == [] && r.settles == 1 && HasSucceeded(o, r)
  }

  predicate SettledAsDead(o: Options, cancelled: bool, r: Record) {
    r.processed == 0 && r.failed == 1 && r.dead == 1 && HookDone(o, r) && r.settles == 1 && HasFailed(o, cancelled, r)
  }

  predicate RecordOk(o: Options, cancelled: bool, r: Record) {
    match r.place
    case Unsent => Fresh(r)
    case Queued => Fresh(r)
    case InHand(_) => true
    case Settled => SettledAsProcessed(o, r) || SettledAsDead(o, cancelled, r)
  }

  predicate InAttempts(p: Actor) {
    p.Looping? || p.Running? || p.Succeeded? || p.Processed? || p.Failed?
  }

  ghost predicate HandInv(s: State)
    requires Shape(s)
  {
    && (forall i | 0 <= i < |s.actors| && s.actors[i].HasJob() ::
          && s.actors[i].job < |s.history.jobs|
          && s.history.jobs[s.actors[i].job].place == InHand(i)
          && HandOk(s.options, s.control.cancelled, s.actors[i], s.history.jobs[s.actors[i].job]))
    && (forall j | 0 <= j < |s.history.jobs| :: RecordOk(s.options, s.control.cancelled, s.history.jobs[j]))
    && !InAttempts(s.actors[Drainer(s)])
  }

  // ---------- counting ----------

  function Holding(p: Actor): nat { if p.HasJob() then 1 else 0 }
  /** The job has left the channel but not the queue depth. */
  function Undequeued(p: Actor): nat { if p.Received? || p.Locked? then 1 else 0 }
  /** The job is counted processed or dead-lettered but not settled. */
  function Unsettled(p: Actor): nat { if p.Processed? || p.DeathCounted? || p.Hooked? || p.Settling? then 1 else 0 }
  /** The job is counted failed but not dead-lettered. */
  function HalfDead(p: Actor): nat { if p.FailureCounted? then 1 else 0 }

  function ProcessedOf(r: Record): nat { r.processed }
  function FailedOf(r: Record): nat { r.failed }
  function DeadOf(r: Record): nat { r.dead }
  function SettlesOf(r: Record): nat { r.settles }

  /** One when a job is in the channel but its submitter has not raised `accepted` yet. */
  function AcceptPending(s: State): nat {
    if s.lock.HeldByCall? && s.lock.job < |s.calls| && s.calls[s.lock.job].Sent? then 1 else 0
  }

  function DepthPending(s: State): nat {
    if s.lock.HeldByCall? && s.lock.job < |s.calls| && (s.calls[s.lock.job].Sent? || s.calls[s.lock.job].Counted?)
    then 1 else 0
  }

  /** The ledgers and gauges, as counts of jobs and actors. */
  ghost predicate LedgerInv(s: State) {
    && s.accepted + AcceptPending(s) == |s.history.sent|
    && s.metrics.queueDepth + DepthPending(s) == |s.queue| + Total(Undequeued, s.actors)
    && s.settled == |s.history.settledOrder|
    && s.settled + Total(Holding, s.actors) == |s.history.received|
    && s.metrics.processed + s.metrics.deadLettered == s.settled + Total(Unsettled, s.actors)
    && s.metrics.failed == s.metrics.deadLettered + Total(HalfDead, s.actors)
    && |s.queue| + Total(Holding, s.actors) <= s.options.capacity + s.options.workers
  }

  /** Each counter is the sum of what the jobs' records say. */
  ghost predicate TallyInv(s: State) {
    && s.metrics.processed == Total(ProcessedOf, s.history.jobs)
    && s.metrics.failed == Total(FailedOf, s.history.jobs)
    && s.metrics.deadLettered == Total(DeadOf, s.history.jobs)
    && s.settled == Total(SettlesOf, s.history.jobs)
  }

  /**
    A job whose submitter is still between the send and the last increment has
    not passed the mutex of jobDequeued.
  */
  ghost predicate PendingInv(s: State) {
    DepthPending(s) == 1 ==>
      var j := s.lock.job;
      j < |s.history.jobs| &&
      var p := s.history.jobs[j].place;
      p.Queued? || (p.InHand? && p.actor < |s.actors| && s.actors[p.actor].Received?)
  }

  /** After cancellation an actor starts at most one more attempt, the drainer none. */
  ghost predicate LateInv(s: State)
    requires Shape(s)
  {
    && (forall i | 0 <= i < |s.actors| ::
          && s.history.late[i] <= 1
          && (s.history.late[i] == 1 ==> s.control.cancelled && !s.actors[i].Looping?))
    && s.history.late[Drainer(s)] == 0
  }

  /** Attempts are cut short only by a cancellation, and that only after the drain timeout. */
  ghost predicate CutInv(s: State) {
    forall j | 0 <= j < |s.history.jobs| && s.history.jobs[j].cut ::
      s.control.cancelled && s.control.exit != WorkersFinished
  }

  /** The abandonment accounting. */
  ghost predicate AccountInv(s: State) {
    var c := s.control;
    var stage := c.coordinator.Stage();
    && (stage == 13 ==> c.coordinator.accepted == s.accepted)
    && (stage >= 14 ==>
          && c.lost == Elements(s.history.sent) - c.settledThen
          && c.settledThen <= Elements(s.history.settledOrder)
          && c.settledThen <= Elements(s.history.sent)
          && |c.lost| <= s.options.capacity + s.options.workers)
    && (stage == 14 || stage == 15 ==> c.coordinator.count == |c.lost|)
    && (stage >= 16 ==> c.abandoned == |c.lost|)
    && s.metrics.abandoned == (if stage >= 16 then |c.lost| else 0)
    && (c.exit == WorkersFinished || c.exit == Unwound ==> c.lost == {})
  }

  ghost predicate Inv(s: State) {
    && Shape(s)
    && LockInv(s)
    && PhaseInv(s)
    && PlaceInv(s)
    && HandInv(s)
    && LedgerInv(s)
    && TallyInv(s)
    && PendingInv(s)
    && LateInv(s)
    && CutInv(s)
    && AccountInv(s)
  }

  // ---------- the initial state ----------

  lemma InitLedger(o: Options, now: int)
    requires ValidOptions(o)
    ensures LedgerInv(Init(o, now))
  {
    var s := Init(o, now);
    TotalZero(Holding, s.actors);
    TotalZero(Undequeued, s.actors);
    TotalZero(Unsettled, s.actors);
    TotalZero(HalfDead, s.actors);
  }

  lemma InitJobs(o: Options, now: int)
    requires ValidOptions(o)
    ensures Shape(Init(o, now)) && PlaceInv(Init(o, now)) && HandInv(Init(o, now)) && TallyInv(Init(o, now))
  {
  }

  lemma InitControl(o: Options, now: int)
    requires ValidOptions(o)
    ensures Shape(Init(o, now)) && LockInv(Init(o, now)) && PhaseInv(Init(o, now)) && LateInv(Init(o, now))
  {
  }

  lemma InitInv(o: Options, now: int)
    requires ValidOptions(o)
    ensures Inv(Init(o, now))
  {
    InitLedger(o, now);
    InitJobs(o, now);
    InitControl(o, now);
  }

  // ---------- an actor that holds a job ----------

  /** What any one step of a job-holding actor changes, whatever the step. */
  ghost predicate EffectOk(o: Options, drainer: bool, cancelled: bool, p: Actor, r: Record, e: Effect)
    requires p.HasJob()
  {
    && (e.next.HasJob() ==>
          && e.next.job == p.job
          && HandOk(o, cancelled, e.next, e.record)
          && e.record.place == r.place
          && e.settled == 0)
    && (!e.next.HasJob() ==>
          && e.next.Receiving?
          && e.record.place == Settled
          && RecordOk(o, cancelled, e.record)
          && e.settled == 1)
    && (drainer ==> !InAttempts(e.next))
    && EffectCounts(cancelled, p, r, e)
    && EffectMoves(drainer, cancelled, p, e)
  }

  /** What it adds to the counters goes with what it adds to the job's record. */
  ghost predicate EffectCounts(cancelled: bool, p: Actor, r: Record, e: Effect) {
    && e.depth + Undequeued(p) == Undequeued(e.next)
    && Unsettled(e.next) + e.settled == Unsettled(p) + e.processed + e.dead
    && HalfDead(e.next) + e.dead == HalfDead(p) + e.failed
    && e.record.processed == r.processed + e.processed
    && e.record.failed == r.failed + e.failed
    && e.record.dead == r.dead + e.dead
    && e.record.settles == r.settles + e.settled
    && (e.record.cut ==> r.cut || cancelled)
  }

  /** What it does to the mutex, and to the attempts after a cancellation. */
  ghost predicate EffectMoves(drainer: bool, cancelled: bool, p: Actor, e: Effect) {
    && (e.lock.TakeLock? <==> p.Received?)
    && (e.lock.DropLock? <==> p.Lowered?)
    && (e.next.HoldsLock() <==> p.Received? || p.Locked?)
    && !e.next.Received?
    && (e.late == 1 ==> cancelled && p.Looping? && !drainer)
    && e.late <= 1
    && (cancelled ==> !e.next.Looping?)
  }

  lemma ActorEffectOk(o: Options, drainer: bool, cancelled: bool, p: Actor, r: Record)
    requires ValidOptions(o) && Busy(p)
    requires HandOk(o, cancelled, p, r)
    requires drainer ==> cancelled && !InAttempts(p)
    ensures EffectOk(o, drainer, cancelled, p, r, EffectOfActor(o, drainer, cancelled, p, r))
  {
    ActorEffectCounts(o, drainer, cancelled, p, r);
    ActorEffectMoves(o, drainer, cancelled, p, r);
  }

  lemma ActorEffectCounts(o: Options, drainer: bool, cancelled: bool, p: Actor, r: Record)
    requires ValidOptions(o) && Busy(p)
    requires drainer ==> cancelled && !InAttempts(p)
    ensures EffectCounts(cancelled, p, r, EffectOfActor(o, drainer, cancelled, p, r))
  {
  }

  lemma ActorEffectMoves(o: Options, drainer: bool, cancelled: bool, p: Actor, r: Record)
    requires ValidOptions(o) && Busy(p)
    requires drainer ==> cancelled && !InAttempts(p)
    ensures EffectMoves(drainer, cancelled, p, EffectOfActor(o, drainer, cancelled, p, r))
  {
  }

  lemma ReturnEffectOk(o: Options, cancelled: bool, p: Actor, outcome: Outcome, r: Record)
    requires ValidOptions(o) && p.Running?
    requires HandOk(o, cancelled, p, r)
    ensures EffectOk(o, false, cancelled, p, r, EffectOfReturn(p.job, p.attempt, outcome, r))
  {
  }

  lemma HookEffectOk(o: Options, drainer: bool, cancelled: bool, p: Actor, r: Record)
    requires ValidOptions(o) && p.Hooked?
    requires HandOk(o, cancelled, p, r)
    ensures EffectOk(o, drainer, cancelled, p, r, Quiet(Settling(p.job), r))
  {
  }

  lemma JobEffectOk(s: State, i: nat, a: Action)
    requires Inv(s) && Enabled(s, a) && MovesJob(s, i, a)
    ensures var p := s.actors[i];
            EffectOk(s.options, i == Drainer(s), s.control.cancelled, p, s.history.jobs[p.job], JobEffect(s, i, a))
  {
    var p := s.actors[i];
    var r := s.history.jobs[p.job];
    match a
    case BodyReturns(_, outcome) => ReturnEffectOk(s.options, s.control.cancelled, p, outcome, r);
    case HookReturns(_) => HookEffectOk(s.options, i == Drainer(s), s.control.cancelled, p, r);
    case ActorStep(_) => ActorEffectOk(s.options, i == Drainer(s), s.control.cancelled, p, r);
  }

  /** The facts every proof about a step of a job-holding actor starts from. */
  ghost predicate JobStep(s: State, i: nat, e: Effect) {
    && Shape(s)
    && i < |s.actors| && s.actors[i].HasJob()
    && EffectOk(s.options, i == Drainer(s), s.control.cancelled, s.actors[i], s.history.jobs[s.actors[i].job], e)
    && (s.actors[i].Received? ==> s.lock.Free?)
    && Shape(ApplyEffect(s, i, e))
  }

  lemma JobStepLock(s: State, i: nat, e: Effect)
    requires JobStep(s, i, e) && LockInv(s)
    ensures LockInv(ApplyEffect(s, i, e))
  {
  }

  lemma JobStepPhase(s: State, i: nat, e: Effect)
    requires JobStep(s, i, e) && PhaseInv(s)
    ensures PhaseInv(ApplyEffect(s, i, e))
  {
  }

  lemma JobStepPlace(s: State, i: nat, e: Effect)
    requires JobStep(s, i, e) && PlaceInv(s) && HandInv(s)
    ensures PlaceInv(ApplyEffect(s, i, e))
  {
  }

  lemma JobStepHand(s: State, i: nat, e: Effect)
    requires JobStep(s, i, e) && HandInv(s)
    ensures HandInv(ApplyEffect(s, i, e))
  {
  }

  lemma JobStepLedger(s: State, i: nat, e: Effect)
    requires JobStep(s, i, e) && LockInv(s) && HandInv(s) && LedgerInv(s)
    ensures LedgerInv(ApplyEffect(s, i, e))
  {
    TotalUpdate(Holding, s.actors, i, e.next);
    TotalUpdate(Undequeued, s.actors, i, e.next);
    TotalUpdate(Unsettled, s.actors, i, e.next);
    TotalUpdate(HalfDead, s.actors, i, e.next);
  }

  lemma JobStepTally(s: State, i: nat, e: Effect)
    requires JobStep(s, i, e) && TallyInv(s)
    ensures TallyInv(ApplyEffect(s, i, e))
  {
    var j := s.actors[i].job;
    TotalUpdate(ProcessedOf, s.history.jobs, j, e.record);
    TotalUpdate(FailedOf, s.history.jobs, j, e.record);
    TotalUpdate(DeadOf, s.history.jobs, j, e.record);
    TotalUpdate(SettlesOf, s.history.jobs, j, e.record);
  }

  lemma JobStepRest(s: State, i: nat, e: Effect)
    requires JobStep(s, i, e) && LockInv(s) && PlaceInv(s) && HandInv(s) && PendingInv(s) && LateInv(s)
    ensures PendingInv(ApplyEffect(s, i, e))
    ensures LateInv(ApplyEffect(s, i, e))
  {
  }

  lemma JobStepCut(s: State, i: nat, e: Effect)
    requires JobStep(s, i, e) && PhaseInv(s) && CutInv(s)
    ensures CutInv(ApplyEffect(s, i, e))
  {
    assert s.control.exit != WorkersFinished;
  }

  lemma JobStepAccount(s: State, i: nat, e: Effect)
    requires JobStep(s, i, e) && AccountInv(s)
    ensures AccountInv(ApplyEffect(s, i, e))
  {
  }

  lemma JobStepInv(s: State, i: nat, a: Action)
    requires Inv(s) && Enabled(s, a) && MovesJob(s, i, a)
    ensures Inv(ApplyEffect(s, i, JobEffect(s, i, a)))
  {
    JobEffectOk(s, i, a);
    JobEffectShape(s, i, a);
    var e := JobEffect(s, i, a);
    JobStepLock(s, i, e);
    JobStepPhase(s, i, e);
    JobStepPlace(s, i, e);
    JobStepHand(s, i, e);
    JobStepLedger(s, i, e);
    JobStepTally(s, i, e);
    JobStepRest(s, i, e);
    JobStepCut(s, i, e);
    JobStepAccount(s, i, e);
  }

  // ---------- an actor at the channel ----------

  ghost predicate ReceiveStep(s: State, i: nat) {
    Shape(s) && i < |s.actors| && s.actors[i].Receiving? && ActorEnabled(s, s.actors[i]) && Shape(StepReceive(s, i))
  }

  lemma SameHolders(s: State, t: State, i: nat)
    requires LockInv(s) && i < |s.actors| == |t.actors| && !s.actors[i].HoldsLock() && !t.actors[i].HoldsLock()
    requires t.actors == s.actors[i := t.actors[i]]
    requires t.lock == s.lock && t.calls == s.calls && t.control == s.control
    ensures LockInv(t)
  {
  }

  lemma ReceiveLock(s: State, i: nat)
    requires Shape(s) && i < |s.actors| && s.actors[i].Receiving? && LockInv(s)
    ensures LockInv(StepReceive(s, i))
  {
    var t := StepReceive(s, i);
    assert t.actors == s.actors[i := t.actors[i]] && !t.actors[i].HoldsLock();
    SameHolders(s, t, i);
  }

  lemma ReceivePending(s: State, i: nat)
    requires ReceiveStep(s, i) && PlaceInv(s) && HandInv(s) && PendingInv(s)
    ensures PendingInv(StepReceive(s, i))
  {
  }

  lemma ReceivePhase(s: State, i: nat)
    requires ReceiveStep(s, i) && PhaseInv(s) && LateInv(s)
    ensures PhaseInv(StepReceive(s, i))
    ensures LateInv(StepReceive(s, i))
  {
  }

  lemma ReceiveAccount(s: State, i: nat)
    requires ReceiveStep(s, i) && AccountInv(s)
    ensures AccountInv(StepReceive(s, i))
  {
  }

  lemma ReceiveCut(s: State, i: nat)
    requires ReceiveStep(s, i) && CutInv(s)
    ensures CutInv(StepReceive(s, i))
  {
  }

  /** The job taken is the oldest one sent and not received, and is no longer queued. */
  lemma TakeOldest(s: State)
    requires FifoInv(s.history, s.queue) && s.queue != []
    ensures var j := s.queue[0];
            && s.history.sent == s.history.received + [j] + s.queue[1..]
            && j in s.history.sent && j !in s.queue[1..]
            && forall k | k != j :: k in s.queue[1..] <==> k in s.queue
  {
    var j, rest := s.queue[0], s.queue[1..];
    assert s.queue == [j] + rest;
    assert s.history.sent[|s.history.received|] == j;
    assert forall k | 0 <= k < |rest| :: rest[k] == s.history.sent[|s.history.received| + 1 + k];
  }

  lemma ReceivePlace(s: State, i: nat)
    requires ReceiveStep(s, i) && PlaceInv(s) && HandInv(s)
    ensures PlaceInv(StepReceive(s, i))
  {
    if s.queue != [] {
      TakeOldest(s);
    }
  }

  lemma ReceiveHand(s: State, i: nat)
    requires ReceiveStep(s, i) && PlaceInv(s) && HandInv(s)
    ensures HandInv(StepReceive(s, i))
  {
    if s.queue != [] {
      assert s.queue[0] in s.queue;
    }
  }

  lemma ReceiveLedger(s: State, i: nat)
    requires ReceiveStep(s, i) && LedgerInv(s)
    ensures LedgerInv(StepReceive(s, i))
  {
    var p := if s.queue == [] then Exited else Received(s.queue[0]);
    assert StepReceive(s, i).actors == s.actors[i := p];
    TotalUpdate(Holding, s.actors, i, p);
    TotalUpdate(Undequeued, s.actors, i, p);
    TotalUpdate(Unsettled, s.actors, i, p);
    TotalUpdate(HalfDead, s.actors, i, p);
  }

  /** Moving a job to another place changes no count of it. */
  lemma PlaceTallies(jobs: seq<Record>, j: JobId, place: Place)
    requires j < |jobs|
    ensures var moved := jobs[j := jobs[j].(place := place)];
            && Total(ProcessedOf, moved) == Total(ProcessedOf, jobs)
            && Total(FailedOf, moved) == Total(FailedOf, jobs)
            && Total(DeadOf, moved) == Total(DeadOf, jobs)
            && Total(SettlesOf, moved) == Total(SettlesOf, jobs)
  {
    var r := jobs[j].(place := place);
    TotalUpdate(ProcessedOf, jobs, j, r);
    TotalUpdate(FailedOf, jobs, j, r);
    TotalUpdate(DeadOf, jobs, j, r);
    TotalUpdate(SettlesOf, jobs, j, r);
  }

  lemma ReceiveTally(s: State, i: nat)
    requires ReceiveStep(s, i) && TallyInv(s)
    ensures TallyInv(StepReceive(s, i))
  {
    if s.queue != [] {
      PlaceTallies(s.history.jobs, s.queue[0], InHand(i));
    }
  }

  lemma ReceiveInv(s: State, i: nat)
    requires Inv(s) && i < |s.actors| && s.actors[i].Receiving? && ActorEnabled(s, s.actors[i])
    ensures Inv(StepReceive(s, i))
  {
    ReceiveShape(s, i);
    ReceiveLock(s, i);
    ReceivePending(s, i);
    ReceivePhase(s, i);
    ReceivePlace(s, i);
    ReceiveHand(s, i);
    ReceiveLedger(s, i);
    ReceiveTally(s, i);
    ReceiveAccount(s, i);
    ReceiveCut(s, i);
  }

  // ---------- a submitter ----------

  ghost predicate SubmitStep(s: State, j: JobId) {
    Shape(s) && j < |s.calls| && CallEnabled(s, s.calls[j]) && Shape(StepCall(s, j))
  }

  /** Until the drainer starts, no more jobs are in hand than there are workers. */
  lemma HoldingBound(s: State)
    requires Shape(s) && !s.actors[Drainer(s)].HasJob()
    ensures Total(Holding, s.actors) <= s.options.workers
  {
    var n := s.options.workers;
    assert s.actors == s.actors[..n] + [s.actors[n]];
    TotalAppend(Holding, s.actors[..n], s.actors[n]);
    TotalAtMost(Holding, s.actors[..n], 1);
  }

  lemma SubmitLock(s: State, j: JobId)
    requires SubmitStep(s, j) && LockInv(s)
    ensures LockInv(StepCall(s, j))
  {
  }

  lemma SubmitPhase(s: State, j: JobId)
    requires SubmitStep(s, j) && LockInv(s) && PhaseInv(s)
    ensures PhaseInv(StepCall(s, j))
  {
  }

  lemma SubmitPlace(s: State, j: JobId)
    requires SubmitStep(s, j) && PhaseInv(s) && PlaceInv(s)
    ensures PlaceInv(StepCall(s, j))
  {
    var t := StepCall(s, j);
    if t.queue != s.queue {
      assert t.history.sent == t.history.received + t.queue;
    }
  }

  lemma SubmitHand(s: State, j: JobId)
    requires SubmitStep(s, j) && PlaceInv(s) && HandInv(s) && LateInv(s)
    ensures HandInv(StepCall(s, j))
    ensures LateInv(StepCall(s, j))
  {
  }

  lemma SubmitLedger(s: State, j: JobId)
    requires SubmitStep(s, j) && LockInv(s) && PhaseInv(s) && PlaceInv(s) && LedgerInv(s)
    ensures LedgerInv(StepCall(s, j))
  {
    if s.calls[j].Sending? {
      HoldingBound(s);
    }
  }

  lemma SubmitTally(s: State, j: JobId)
    requires SubmitStep(s, j) && TallyInv(s) && CutInv(s)
    ensures TallyInv(StepCall(s, j)) && CutInv(StepCall(s, j))
  {
    var t := StepCall(s, j);
    if t.queue != s.queue {
      PlaceTallies(s.history.jobs, j, Queued);
    }
  }

  lemma SubmitRest(s: State, j: JobId)
    requires SubmitStep(s, j) && LockInv(s) && PhaseInv(s) && PlaceInv(s) && PendingInv(s) && AccountInv(s)
    ensures PendingInv(StepCall(s, j))
    ensures AccountInv(StepCall(s, j))
  {
  }

  lemma SubmitInv(s: State, j: JobId)
    requires Inv(s) && j < |s.calls| && CallEnabled(s, s.calls[j])
    ensures Inv(StepCall(s, j))
  {
    CallShape(s, j);
    SubmitLock(s, j);
    SubmitPhase(s, j);
    SubmitPlace(s, j);
    SubmitHand(s, j);
    SubmitLedger(s, j);
    SubmitTally(s, j);
    SubmitRest(s, j);
  }

  // ---------- the coordinator ----------

  /** What any one step of the coordinator changes, whatever the step. */
  ghost predicate ControlEffect(s: State, c: Control, next: Control) {
    var m, n := c.coordinator.Stage(), next.coordinator.Stage();
    && ControlInv(next)
    && 1 <= m < n
    && (next.coordinator.HoldsLock() <==> 2 <= m <= 4)
    && (m == 1 ==> s.parentDone)
    && (m < 4 <= n ==> m == 3)
    && (c.cancelled ==> next.cancelled)
    && (DrainerSpawned(next) <==> DrainerSpawned(c) || m == 9)
    && (next.exit == WorkersFinished ==> s.workersDone)
    && (next.exit == Unwound ==> s.drained)
    && (next.exit == c.exit || (next.exit == WorkersFinished && m == 7) || (next.exit == Unwound && m == 11) || m == 13)
    && (n == 13 ==> next.coordinator.accepted == s.accepted)
    && (m < 14 <= n ==> next.lost == UnsettledJobs(s.history) && next.settledThen == SettledJobs(s.history))
    && (m >= 14 ==> next.lost == c.lost && next.settledThen == c.settledThen && next.exit == c.exit)
    && (n == 14 ==> m == 13 && next.coordinator.count == c.coordinator.accepted - s.settled)
    && (n == 15 ==> m == 14 && next.coordinator.count == c.coordinator.count)
    && (n >= 16 ==> next.abandoned == c.abandoned)
    && (n == 16 && next.exit == TimedOut ==> m == 15 || (m == 13 && c.coordinator.accepted <= s.settled))
    && (n >= 16 ==> m == 7 || m == 11 || m == 13 || m >= 15)
    && (n >= 17 ==> m >= 16)
    && (m == 13 ==> next.exit == TimedOut)
  }

  lemma ControlEffectOk(s: State, arm: Arm)
    requires Inv(s) && CoordinatorEnabled(s, arm)
    ensures ControlEffect(s, s.control,
                          NextControl(s.control, arm, s.options, s.now, s.accepted, s.settled,
                                      UnsettledJobs(s.history), SettledJobs(s.history)))
  {
    ControlTable(s, s.control, arm, UnsettledJobs(s.history), SettledJobs(s.history));
  }

  lemma ControlTable(s: State, c: Control, arm: Arm, lost: set<JobId>, settledThen: set<JobId>)
    requires ControlInv(c) && s.control == c && CoordinatorEnabled(s, arm)
    requires c.exit == WorkersFinished ==> s.workersDone
    requires c.exit == Unwound ==> s.drained
    requires lost == UnsettledJobs(s.history) && settledThen == SettledJobs(s.history)
    ensures ControlEffect(s, c, NextControl(c, arm, s.options, s.now, s.accepted, s.settled, lost, settledThen))
  {
    match c.coordinator
    case AwaitingCancel =>
    case Acquiring =>
    case InspectingStop =>
    case Closing =>
    case Unlocking =>
    case ArmingDrain =>
    case DrainSelect =>
    case Cancelling =>
    case Spawning =>
    case ArmingUnwind =>
    case UnwindSelect =>
    case LoadingAccepted =>
    case LoadingSettled(_) =>
    case StoringAbandoned(_) =>
    case CountingAbandoned(_) =>
    case FinalCancel =>
    case ClosingDone =>
  }

  ghost predicate ControlStep(s: State, next: Control) {
    && Shape(s)
    && PhaseInv(s)
    && ControlEffect(s, s.control, next)
    && (s.control.coordinator.Acquiring? ==> s.lock.Free?)
    && Shape(ApplyControl(s, next))
  }

  lemma ControlLock(s: State, next: Control)
    requires ControlStep(s, next) && LockInv(s) && PendingInv(s)
    ensures LockInv(ApplyControl(s, next))
    ensures PendingInv(ApplyControl(s, next))
  {
  }

  lemma ControlPhase(s: State, next: Control)
    requires ControlStep(s, next) && LockInv(s)
    ensures PhaseInv(ApplyControl(s, next))
  {
  }

  lemma ControlPlace(s: State, next: Control)
    requires ControlStep(s, next) && PlaceInv(s) && LateInv(s)
    ensures PlaceInv(ApplyControl(s, next))
    ensures LateInv(ApplyControl(s, next))
  {
  }

  lemma ControlHand(s: State, next: Control)
    requires ControlStep(s, next) && HandInv(s)
    ensures HandInv(ApplyControl(s, next))
  {
  }

  lemma ControlLedger(s: State, next: Control)
    requires ControlStep(s, next) && LockInv(s) && LedgerInv(s) && TallyInv(s)
    ensures LedgerInv(ApplyControl(s, next))
    ensures TallyInv(ApplyControl(s, next))
  {
    TotalUpdate(Holding, s.actors, Drainer(s), Receiving);
    TotalUpdate(Undequeued, s.actors, Drainer(s), Receiving);
    TotalUpdate(Unsettled, s.actors, Drainer(s), Receiving);
    TotalUpdate(HalfDead, s.actors, Drainer(s), Receiving);
  }

  /** With every worker gone and the drainer absent or gone, nothing is unsettled. */
  lemma NothingHeld(s: State)
    requires Inv(s) && s.workersDone
    requires s.actors[Drainer(s)].Unstarted? || s.actors[Drainer(s)].Exited?
    ensures s.queue == [] && Total(Holding, s.actors) == 0
    ensures s.settled == |s.history.sent|
  {
    assert s.actors[0].Exited?;
    TotalZero(Holding, s.actors);
  }

  lemma ControlCut(s: State, next: Control)
    requires ControlStep(s, next) && CutInv(s)
    ensures CutInv(ApplyControl(s, next))
  {
  }

  /** The number of unsettled jobs, as a difference of two ledgers. */
  lemma UnsettledCount(s: State)
    requires Inv(s)
    ensures Elements(s.history.settledOrder) <= Elements(s.history.sent)
    ensures UnsettledJobs(s.history) == Elements(s.history.sent) - Elements(s.history.settledOrder)
    ensures SettledJobs(s.history) == Elements(s.history.settledOrder)
    ensures |UnsettledJobs(s.history)| == |s.history.sent| - s.settled
  {
    forall j | j in s.history.settledOrder ensures j in s.history.sent {
      assert s.history.jobs[j].place.Settled?;
    }
    DifferenceSize(s.history.sent, s.history.settledOrder);
    assert UnsettledJobs(s.history) == Elements(s.history.sent) - Elements(s.history.settledOrder);
  }

  /** Once the channel is closed no submitter is between its send and its increments. */
  lemma NothingPending(s: State)
    requires Inv(s) && s.control.closed
    ensures AcceptPending(s) == 0 && DepthPending(s) == 0
    ensures s.accepted == |s.history.sent|
  {
  }

  ghost predicate AccountFixed(s: State, next: Control) {
    && next.lost == Elements(s.history.sent) - next.settledThen
    && next.settledThen == Elements(s.history.settledOrder) <= Elements(s.history.sent)
    && |next.lost| == s.accepted - s.settled <= s.options.capacity + s.options.workers
    && (next.exit != TimedOut ==> next.lost == {})
  }

  /** The step that fixes what is lost. */
  lemma ControlAccounts(s: State, next: Control)
    requires ControlStep(s, next) && Inv(s)
    requires s.control.coordinator.Stage() < 14 <= next.coordinator.Stage()
    ensures AccountFixed(s, next)
  {
    UnsettledCount(s);
    NothingPending(s);
    if next.exit == WorkersFinished || next.exit == Unwound {
      NothingHeld(s);
    }
  }

  lemma ControlAccount(s: State, next: Control)
    requires ControlStep(s, next) && AccountInv(s)
    requires s.control.coordinator.Stage() < 14 <= next.coordinator.Stage() ==> AccountFixed(s, next)
    ensures AccountInv(ApplyControl(s, next))
  {
  }

  lemma ControlStepInv(s: State, arm: Arm)
    requires Inv(s) && CoordinatorEnabled(s, arm)
    ensures Inv(StepCoordinator(s, arm))
  {
    CoordinatorShape(s, arm);
    ControlEffectOk(s, arm);
    var next := NextControl(s.control, arm, s.options, s.now, s.accepted, s.settled,
                            UnsettledJobs(s.history), SettledJobs(s.history));
    ControlLock(s, next);
    ControlPhase(s, next);
    ControlPlace(s, next);
    ControlHand(s, next);
    ControlLedger(s, next);
    ControlCut(s, next);
    if s.control.coordinator.Stage() < 14 <= next.coordinator.Stage() {
      ControlAccounts(s, next);
    }
    ControlAccount(s, next);
  }

  // ---------- everything else ----------

  lemma {:induction false} StartTotals(weight: Actor -> nat, n: nat, last: Actor)
    requires weight(Receiving) == 0
    ensures Total(weight, seq(n, _ => Receiving) + [last]) == weight(last)
  {
    TotalAppend(weight, seq(n, _ => Receiving), last);
    TotalZero(weight, seq(n, _ => Receiving));
  }

  lemma StartLedger(s: State)
    requires Shape(s) && PhaseInv(s) && LedgerInv(s) && !s.started
    ensures LedgerInv(StepStart(s))
  {
    var n, last := s.options.workers, s.actors[Drainer(s)];
    StartTotals(Holding, n, last);
    StartTotals(Undequeued, n, last);
    StartTotals(Unsettled, n, last);
    StartTotals(HalfDead, n, last);
    TotalZero(Holding, s.actors);
    TotalZero(Undequeued, s.actors);
    TotalZero(Unsettled, s.actors);
    TotalZero(HalfDead, s.actors);
  }

  lemma StartPhase(s: State)
    requires Shape(s) && LockInv(s) && PhaseInv(s) && LateInv(s) && !s.started
    ensures Shape(StepStart(s)) && LockInv(StepStart(s)) && PhaseInv(StepStart(s)) && LateInv(StepStart(s))
  {
  }

  lemma StartPlace(s: State)
    requires Shape(s) && PhaseInv(s) && PlaceInv(s) && HandInv(s) && !s.started
    ensures Shape(StepStart(s)) && PlaceInv(StepStart(s)) && HandInv(StepStart(s))
  {
  }

  lemma StartRest(s: State)
    requires Shape(s) && PhaseInv(s) && PlaceInv(s) && HandInv(s) && !s.started
    requires TallyInv(s) && PendingInv(s) && AccountInv(s) && CutInv(s)
    ensures TallyInv(StepStart(s)) && PendingInv(StepStart(s)) && AccountInv(StepStart(s)) && CutInv(StepStart(s))
  {
  }

  lemma StartInv(s: State)
    requires Inv(s)
    ensures Inv(StepStart(s))
  {
    if !s.started {
      StartLedger(s);
      StartPhase(s);
      StartPlace(s);
      StartRest(s);
    }
  }

  lemma CallSubmitTally(s: State)
    requires Shape(s) && TallyInv(s) && CutInv(s)
    ensures TallyInv(Step(s, CallSubmit)) && CutInv(Step(s, CallSubmit))
  {
    TotalAppend(ProcessedOf, s.history.jobs, NEW_RECORD);
    TotalAppend(FailedOf, s.history.jobs, NEW_RECORD);
    TotalAppend(DeadOf, s.history.jobs, NEW_RECORD);
    TotalAppend(SettlesOf, s.history.jobs, NEW_RECORD);
  }

  lemma CallSubmitPlace(s: State)
    requires Shape(s) && PlaceInv(s) && HandInv(s)
    ensures PlaceInv(Step(s, CallSubmit)) && HandInv(Step(s, CallSubmit))
  {
  }

  lemma CallSubmitPhase(s: State)
    requires Shape(s) && LockInv(s) && PhaseInv(s)
    ensures Shape(Step(s, CallSubmit)) && LockInv(Step(s, CallSubmit)) && PhaseInv(Step(s, CallSubmit))
  {
  }

  lemma CallSubmitInv(s: State)
    requires Inv(s)
    ensures Inv(Step(s, CallSubmit))
  {
    CallSubmitTally(s);
    CallSubmitPlace(s);
    CallSubmitPhase(s);
  }

  /** The other actions each write one flag, or the clock. */
  predicate SignalOnly(s: State, t: State) {
    t == s.(now := t.now, parentDone := t.parentDone, workersDone := t.workersDone, drained := t.drained)
  }

  lemma SignalPhase(s: State, a: Action)
    requires Shape(s) && PhaseInv(s) && Enabled(s, a)
    requires a.CancelParent? || a.Tick? || a.SignalWorkersDone? || a.SignalDrained?
    ensures PhaseInv(Step(s, a)) && SignalOnly(s, Step(s, a))
  {
  }

  lemma SignalJobs(s: State, t: State)
    requires Shape(s) && PlaceInv(s) && HandInv(s) && SignalOnly(s, t)
    ensures Shape(t) && PlaceInv(t) && HandInv(t)
  {
  }

  lemma SignalRest(s: State, t: State)
    requires Inv(s) && SignalOnly(s, t) && Shape(t)
    ensures LockInv(t) && LedgerInv(t) && TallyInv(t) && PendingInv(t) && LateInv(t) && CutInv(t) && AccountInv(t)
  {
  }

  lemma SignalInv(s: State, a: Action)
    requires Inv(s) && Enabled(s, a)
    requires a.CancelParent? || a.Tick? || a.SignalWorkersDone? || a.SignalDrained?
    ensures Inv(Step(s, a))
  {
    SignalPhase(s, a);
    SignalJobs(s, Step(s, a));
    SignalRest(s, Step(s, a));
  }

  /** Only the coordinator, and Start, write the control; only a tick moves the clock. */
  lemma ControlUntouched(s: State, a: Action)
    requires Shape(s) && Enabled(s, a) && !a.CoordinatorStep?
    ensures var t := Step(s, a);
            && t.control == (if a.Start? && !s.started then s.control.(coordinator := AwaitingCancel) else s.control)
            && t.now == s.now + (if a.Tick? then a.duration else 0)
            && t.metrics.abandoned == s.metrics.abandoned
            && t.options == s.options
  {
    if a.CallStep? || a.ActorStep? || a.BodyReturns? || a.HookReturns? {
      StepShell(s, a);
    }
  }

  // ---------- every step, every run ----------

  lemma StepInv(s: State, a: Action)
    requires Inv(s) && Enabled(s, a)
    ensures Inv(Step(s, a))
  {
    match a
    case Start => StartInv(s);
    case CallSubmit => CallSubmitInv(s);
    case CallStep(j) => SubmitInv(s, j);
    case ActorStep(i) => if s.actors[i].Receiving? { ReceiveInv(s, i); } else { JobStepInv(s, i, a); }
    case BodyReturns(i, _) => JobStepInv(s, i, a);
    case HookReturns(i) => JobStepInv(s, i, a);
    case CoordinatorStep(arm) => ControlStepInv(s, arm);
    case _ => SignalInv(s, a);
  }

  lemma {:induction false} ExecInv(s: State, schedule: seq<Action>)
    requires Inv(s)
    ensures Inv(Exec(s, schedule))
    decreases |schedule|
  {
    if schedule != [] {
      if Enabled(s, schedule[0]) {
        StepInv(s, schedule[0]);
      }
      ExecInv(Advance(s, schedule[0]), schedule[1..]);
    }
  }

  /** The invariant holds at the end of every schedule from a new pool. */
  lemma RunInv(o: Options, now: int, schedule: seq<Action>)
    ensures Inv(Run(o, now, schedule))
  {
    InitInv(Clamp(o), now);
    ExecInv(Init(Clamp(o), now), schedule);
  }
}
