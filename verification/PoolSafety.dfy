/**
  What every run of the pool keeps. Each theorem speaks of the state that an
  arbitrary schedule leads to from a pool with arbitrary options.
*/
module PoolSafety {
  import opened Basics
  import opened Sums
  import opened PoolModel
  import opened PoolInvariant

  // ---------- ledgers and gauges ----------

  /** No submitter is inside its critical section past the send, and no actor before the end of jobDequeued's. */
  ghost predicate DepthSettled(s: State) {
    && (forall j | 0 <= j < |s.calls| :: !s.calls[j].Sent? && !s.calls[j].Counted?)
    && (forall i | 0 <= i < |s.actors| :: !s.actors[i].Received? && !s.actors[i].Locked?)
  }

  /**
    `settled` never overtakes `accepted` and the queue depth stays between zero
    and the capacity plus the workers, in every interleaving.
  */
  lemma LedgerSafety(o: Options, now: int, schedule: seq<Action>)
    ensures var s := Run(o, now, schedule);
            && 0 <= s.settled <= s.accepted
            && 0 <= s.metrics.queueDepth <= s.options.capacity + s.options.workers
            && s.accepted - s.settled <= s.options.capacity + s.options.workers
            && (DepthSettled(s) ==> s.metrics.queueDepth == |s.queue|)
  {
    RunInv(o, now, schedule);
    var s := Run(o, now, schedule);
    PendingIsVisible(s);
    TotalMonotone(Undequeued, Holding, s.actors);
    if DepthSettled(s) {
      TotalZero(Undequeued, s.actors);
    }
  }

  /**
    The job of a submitter that is past its send but not its increments is still
    queued, or has just been received and waits for the mutex. So it is part of
    what the gauges are compared with.
  */
  lemma PendingIsVisible(s: State)
    requires Inv(s)
    ensures DepthPending(s) == 1 ==>
              s.lock.job in s.queue || exists i: nat :: Holds(s, i, s.lock.job) && s.actors[i].Received?
    ensures AcceptPending(s) <= DepthPending(s)
    ensures DepthPending(s) <= |s.queue| + Total(Undequeued, s.actors)
    ensures DepthPending(s) <= |s.queue| + Total(Holding, s.actors)
  {
    if DepthPending(s) == 1 {
      var j := s.lock.job;
      var p := s.history.jobs[j].place;
      if p.Queued? {
        assert j in s.queue;
      } else {
        assert Holds(s, p.actor, j);
        TotalAtLeast(Undequeued, s.actors, p.actor);
        TotalAtLeast(Holding, s.actors, p.actor);
      }
    }
  }

  /** The failure counters never drift apart by more than the actors in between. */
  lemma CounterOrder(o: Options, now: int, schedule: seq<Action>)
    ensures var s := Run(o, now, schedule);
            && s.metrics.deadLettered <= s.metrics.failed <= s.metrics.deadLettered + s.options.workers + 1
            && s.settled <= s.metrics.processed + s.metrics.deadLettered <= s.settled + s.options.workers + 1
            && s.metrics.processed == Total(ProcessedOf, s.history.jobs)
            && s.metrics.failed == Total(FailedOf, s.history.jobs)
            && s.metrics.deadLettered == Total(DeadOf, s.history.jobs)
            && s.settled == Total(SettlesOf, s.history.jobs)
  {
    RunInv(o, now, schedule);
    var s := Run(o, now, schedule);
    TotalAtMost(HalfDead, s.actors, 1);
    TotalAtMost(Unsettled, s.actors, 1);
  }

  // ---------- exactly once ----------

  /** `j` is in the hand of some actor. */
  ghost predicate Held(s: State, j: JobId) {
    exists i: nat :: Holds(s, i, j)
  }

  /**
    First in, first out; and every received job is in the hand of exactly one
    actor or settled, never both, never neither.
  */
  lemma ExactlyOnce(o: Options, now: int, schedule: seq<Action>)
    ensures var s := Run(o, now, schedule);
            && s.history.sent == s.history.received + s.queue
            && Distinct(s.history.sent)
            && Distinct(s.history.settledOrder)
            && (forall j | j in s.history.received :: Held(s, j) <==> j !in s.history.settledOrder)
            && (forall j | j in s.history.settledOrder :: j in s.history.received)
            && (forall j: nat | Held(s, j) :: j in s.history.received)
            && (forall i: nat, k: nat, j | Holds(s, i, j) && Holds(s, k, j) :: i == k)
            && (forall j | j in s.queue :: !Held(s, j) && j !in s.history.settledOrder)
  {
    RunInv(o, now, schedule);
    PlacesPartition(Run(o, now, schedule));
  }

  lemma PlacesPartition(s: State)
    requires Inv(s)
    ensures forall j | j in s.history.received :: Held(s, j) <==> j !in s.history.settledOrder
    ensures forall j | j in s.history.settledOrder :: j in s.history.received
    ensures forall j: nat | Held(s, j) :: j in s.history.received
    ensures forall i: nat, k: nat, j | Holds(s, i, j) && Holds(s, k, j) :: i == k
    ensures forall j | j in s.queue :: !Held(s, j) && j !in s.history.settledOrder
  {
    forall j | j in s.history.received
      ensures Held(s, j) <==> j !in s.history.settledOrder
    {
      assert j in s.history.sent && j !in s.queue by {
        ReceivedNotQueued(s, j);
      }
      var p := s.history.jobs[j].place;
      if p.InHand? {
        assert Holds(s, p.actor, j);
      }
    }
    forall j | j in s.history.settledOrder ensures j in s.history.received {
      assert s.history.jobs[j].place.Settled?;
      assert j in s.history.sent && j !in s.queue;
    }
    forall j: nat | Held(s, j) ensures j in s.history.received {
      assert s.history.jobs[j].place.InHand?;
      assert j in s.history.sent && j !in s.queue;
    }
  }

  lemma ReceivedNotQueued(s: State, j: JobId)
    requires Inv(s) && j in s.history.received
    ensures j in s.history.sent && j !in s.queue
  {
    var h := s.history;
    var a :| 0 <= a < |h.received| && h.received[a] == j;
    assert h.sent[a] == j;
    forall b | 0 <= b < |s.queue| ensures s.queue[b] != j {
      assert h.sent[|h.received| + b] == s.queue[b];
    }
  }

  // ---------- attempts and dead letters ----------

  /** The record of a job goes with its place. */
  lemma RecordFits(s: State, j: JobId)
    requires Shape(s) && PlaceInv(s) && HandInv(s) && j < |s.history.jobs|
    ensures var r := s.history.jobs[j];
            && (r.place.Settled? <==> j in s.history.settledOrder)
            && match r.place
               case Unsent => Fresh(r)
               case Queued => Fresh(r)
               case InHand(i) =>
                 i < |s.actors| && s.actors[i].HasJob() && HandOk(s.options, s.control.cancelled, s.actors[i], r)
               case Settled => SettledAsProcessed(s.options, r) || SettledAsDead(s.options, s.control.cancelled, r)
  {
    var p := s.history.jobs[j].place;
    if p.InHand? {
      assert Holds(s, p.actor, j);
    }
  }

  /**
    The whole life of any job: never more than MaxAttempts attempts, settled at
    most once, and counted processed or dead-lettered but never both.
  */
  lemma JobLife(o: Options, now: int, schedule: seq<Action>, j: JobId)
    requires j < |Run(o, now, schedule).history.jobs|
    ensures var s := Run(o, now, schedule);
            var r := s.history.jobs[j];
            && r.failures <= r.attempts <= s.options.maxAttempts
            && r.settles <= 1 && r.processed + r.dead <= 1 && r.dead <= r.failed <= 1
            && (r.processed == 1 ==> r.attempts == r.failures + 1 && r.failed == 0)
            && (r.failed == 1 ==> r.attempts == r.failures)
            && (r.failed == 1 && !s.control.cancelled ==> r.failures == s.options.maxAttempts)
            && (r.settles == 1 <==> j in s.history.settledOrder)
            && (r.settles == 1 ==> r.processed + r.dead == 1)
  {
    RunInv(o, now, schedule);
    RecordFits(Run(o, now, schedule), j);
  }

  /**
    The dead-letter hook is called at most once for a job, with an error, and
    after exactly one JobFailed and one JobDeadLettered for it.
  */
  lemma DeadLetterHook(o: Options, now: int, schedule: seq<Action>, j: JobId)
    requires j < |Run(o, now, schedule).history.jobs|
    ensures var s := Run(o, now, schedule);
            var r := s.history.jobs[j];
            && |r.hooks| <= 1
            && (r.hooks != [] ==>
                  s.options.hasHook && r.hooks[0].Some? && r.failed == 1 && r.dead == 1 && r.processed == 0)
            && (r.settles == 1 && r.dead == 1 && s.options.hasHook ==> |r.hooks| == 1)
  {
    RunInv(o, now, schedule);
    RecordFits(Run(o, now, schedule), j);
  }

  /** A pool that drains before the deadline dead-letters a job only after exactly MaxAttempts failures. */
  lemma DrainedInTime(o: Options, now: int, schedule: seq<Action>, j: JobId)
    requires Run(o, now, schedule).control.exit == WorkersFinished
    requires j < |Run(o, now, schedule).history.jobs|
    ensures var s := Run(o, now, schedule);
            var r := s.history.jobs[j];
            && (r.dead == 1 ==> r.failures == r.attempts == s.options.maxAttempts)
            && (j in s.history.sent ==> r.settles == 1)
  {
    RunInv(o, now, schedule);
    var s := Run(o, now, schedule);
    NothingHeld(s);
    TotalHoldingZero(s);
  }

  lemma TotalHoldingZero(s: State)
    requires Inv(s) && Total(Holding, s.actors) == 0
    ensures forall i | 0 <= i < |s.actors| :: !s.actors[i].HasJob()
  {
    forall i | 0 <= i < |s.actors| ensures !s.actors[i].HasJob() {
      TotalAtLeast(Holding, s.actors, i);
    }
  }

  function Count(n: nat): nat { n }

  /** After cancelJobs each worker starts at most one more attempt, the drainer none: at most Workers in all. */
  lemma LateAttempts(o: Options, now: int, schedule: seq<Action>)
    ensures var s := Run(o, now, schedule);
            && (forall i | 0 <= i < |s.history.late| :: s.history.late[i] <= 1)
            && (!s.control.cancelled ==> Total(Count, s.history.late) == 0)
            && Total(Count, s.history.late) <= s.options.workers
  {
    RunInv(o, now, schedule);
    var s := Run(o, now, schedule);
    var n := s.options.workers;
    var late := s.history.late;
    assert late == late[..n] + [late[n]];
    TotalAppend(Count, late[..n], late[n]);
    TotalAtMost(Count, late[..n], 1);
    if !s.control.cancelled {
      TotalZero(Count, late);
    }
  }

  // ---------- the channel ----------

  /** No send on, and no close of, the closed channel; `stopping` and the close agree whenever the lock is free. */
  lemma ChannelLifecycle(o: Options, now: int, schedule: seq<Action>)
    ensures var s := Run(o, now, schedule);
            && !s.panicked
            && (s.lock.Free? ==> (s.control.stopping <==> s.control.closed))
            && (s.control.closed ==> s.control.stopping)
            && (s.control.closed ==> forall j | 0 <= j < |s.calls| :: !SendingCall(s.calls[j]))
  {
    RunInv(o, now, schedule);
  }

  /** Why a call of Submit comes to its verdict: what held at the step that fixed it. */
  lemma SubmitVerdict(o: Options, now: int, schedule: seq<Action>, j: JobId, v: Verdict)
    requires var s := Run(o, now, schedule);
             Enabled(s, CallStep(j)) && !s.calls[j].Returning?
    requires Step(Run(o, now, schedule), CallStep(j)).calls[j] == Returning(v)
    ensures var s := Run(o, now, schedule);
            && (v == PoolStopped ==> s.control.stopping && j !in s.history.sent)
            && (v == QueueFull ==> |s.queue| == s.options.capacity && !s.control.closed && j !in s.history.sent)
            && (v == Accepted ==> j in s.history.sent)
  {
    RunInv(o, now, schedule);
  }

  /** A call has returned nil exactly when its job was sent. */
  lemma AcceptedMeansSent(o: Options, now: int, schedule: seq<Action>, j: JobId)
    requires j < |Run(o, now, schedule).calls|
    requires Run(o, now, schedule).calls[j].Returned?
    ensures var s := Run(o, now, schedule);
            s.calls[j].verdict == Accepted <==> j in s.history.sent
  {
    RunInv(o, now, schedule);
  }

  /** What the rest of the pool cannot do to a call of Submit, and to what its mutex protects. */
  ghost predicate CallKept(s: State, t: State, j: JobId) {
    && j < |s.calls| && j < |t.calls| && t.calls[j] == s.calls[j]
    && (CallHolds(s.calls[j]) ==>
          && t.lock == s.lock
          && t.control.stopping == s.control.stopping
          && t.history.sent == s.history.sent
          && |t.queue| <= |s.queue|)
  }

  lemma OthersKeepCall(s: State, a: Action, j: JobId)
    requires Shape(s) && LockInv(s) && PhaseInv(s) && Enabled(s, a) && j < |s.calls| && a != CallStep(j)
    ensures CallKept(s, Step(s, a), j)
  {
    if a.CoordinatorStep? {
      CoordinatorKeepsCall(s, a.arm, j);
    } else if a.ActorStep? {
      ActorKeepsCall(s, a.actor, j);
    } else {
      ControlUntouched(s, a);
    }
  }

  lemma ActorKeepsCall(s: State, i: nat, j: JobId)
    requires Shape(s) && LockInv(s) && Enabled(s, ActorStep(i)) && j < |s.calls|
    ensures CallKept(s, Step(s, ActorStep(i)), j)
  {
    if s.actors[i].Receiving? {
      ReceiveKeepsCall(s, i, j);
    } else {
      var p, e := s.actors[i], JobEffect(s, i, ActorStep(i));
      if CallHolds(s.calls[j]) {
        LocksAt(s.options, i == Drainer(s), s.control.cancelled, p, s.history.jobs[p.job]);
      }
      EffectKeepsCall(s, i, e, j);
    }
  }

  /** The two statements of an actor that touch the mutex. */
  lemma LocksAt(o: Options, drainer: bool, cancelled: bool, p: Actor, r: Record)
    requires Busy(p) && !p.Received? && !p.Lowered?
    ensures EffectOfActor(o, drainer, cancelled, p, r).lock == KeepLock
  {
  }

  lemma ReceiveKeepsCall(s: State, i: nat, j: JobId)
    requires Shape(s) && i < |s.actors| && j < |s.calls|
    ensures CallKept(s, StepReceive(s, i), j)
  {
  }

  lemma EffectKeepsCall(s: State, i: nat, e: Effect, j: JobId)
    requires Shape(s) && i < |s.actors| && s.actors[i].HasJob() && j < |s.calls|
    requires CallHolds(s.calls[j]) ==> e.lock.KeepLock?
    ensures CallKept(s, ApplyEffect(s, i, e), j)
  {
  }

  lemma CoordinatorKeepsCall(s: State, arm: Arm, j: JobId)
    requires Shape(s) && LockInv(s) && PhaseInv(s) && CoordinatorEnabled(s, arm) && j < |s.calls|
    ensures CallKept(s, StepCoordinator(s, arm), j)
  {
    if CallHolds(s.calls[j]) {
      assert s.lock == HeldByCall(j);
      assert !s.control.coordinator.HoldsLock();
    }
  }

  lemma {:induction false} OthersKeepCallRun(s: State, schedule: seq<Action>, j: JobId)
    requires Inv(s) && j < |s.calls| && CallStep(j) !in schedule
    ensures CallKept(s, Exec(s, schedule), j)
    decreases |schedule|
  {
    if schedule != [] {
      var a := schedule[0];
      if Enabled(s, a) {
        StepInv(s, a);
        OthersKeepCall(s, a, j);
      }
      OthersKeepCallRun(Advance(s, a), schedule[1..], j);
    }
  }

  /** Statements a call of Submit takes in all. */
  function Statements(v: Verdict): nat {
    match v
    case PoolStopped => 3
    case QueueFull => 4
    case Accepted => 6
  }

  /** Statements it has taken. */
  function StatementsDone(c: Call): int {
    match c
    case Waiting => 0
    case Inspecting => 1
    case Sending => 2
    case Sent => 3
    case Counted => 4
    case Returning(v) => Statements(v) - 1
    case Returned(v) => Statements(v)
  }

  /** A call of Submit from its beginning, with everybody else's actions before each of its statements. */
  function CallSchedule(j: JobId, gaps: seq<seq<Action>>): seq<Action> {
    if gaps == [] then [CallSubmit]
    else CallSchedule(j, gaps[..|gaps| - 1]) + (gaps[|gaps| - 1] + [CallStep(j)])
  }

  lemma ScheduleGrows(s: State, j: JobId, gaps: seq<seq<Action>>, k: nat)
    requires Shape(s) && k < |gaps|
    ensures Exec(s, CallSchedule(j, gaps[..k + 1]))
         == Exec(Exec(s, CallSchedule(j, gaps[..k])), gaps[k] + [CallStep(j)])
    ensures Exec(s, CallSchedule(j, gaps[..k]) + gaps[k]) == Exec(Exec(s, CallSchedule(j, gaps[..k])), gaps[k])
  {
    assert gaps[..k + 1][..k] == gaps[..k];
    ExecConcat(s, CallSchedule(j, gaps[..k]), gaps[k] + [CallStep(j)]);
    ExecConcat(s, CallSchedule(j, gaps[..k]), gaps[k]);
  }

  predicate Decided(c: Call, v: Verdict) {
    c == Returning(v) || c == Returned(v)
  }

  /** A call that has locked: its verdict so far agrees with `stopping`, and with the channel as it tried it. */
  ghost predicate MidCall(s: State, j: JobId, tried: State) {
    && j < |s.calls|
    && !s.calls[j].Waiting?
    && (Decided(s.calls[j], PoolStopped) ==> s.control.stopping)
    && (s.control.stopping ==> s.calls[j].Inspecting? || Decided(s.calls[j], PoolStopped))
    && (Decided(s.calls[j], QueueFull) ==> |tried.queue| == s.options.capacity && tried.history.sent == s.history.sent)
  }

  /** What a returned verdict means, at the moment of the return. */
  lemma VerdictMeans(s: State, j: JobId, tried: State)
    requires Shape(s) && PhaseInv(s) && PlaceInv(s) && j < |s.calls|
    requires s.calls[j].Waiting? || (s.calls[j].Returned? && MidCall(s, j, tried))
    ensures s.calls[j] == Returned(Accepted) <==> j in s.history.sent
    ensures s.calls[j].Returned? ==> (s.calls[j].verdict == PoolStopped <==> s.control.stopping)
    ensures s.calls[j] == Returned(QueueFull) ==>
              |tried.queue| == s.options.capacity && tried.history.sent == s.history.sent
  {
  }

  lemma MidCallStart(s: State, j: JobId, tried: State)
    requires Shape(s) && j < |s.calls| && s.calls[j].Waiting? && s.lock.Free?
    ensures MidCall(Advance(s, CallStep(j)), j, tried)
    ensures Advance(s, CallStep(j)).calls[j].Inspecting?
  {
  }

  lemma MidCallGap(s: State, gap: seq<Action>, j: JobId, tried: State)
    requires Inv(s) && MidCall(s, j, tried) && CallHolds(s.calls[j]) && CallStep(j) !in gap
    ensures MidCall(Exec(s, gap), j, tried)
    ensures Exec(s, gap).calls[j] == s.calls[j]
  {
    OthersKeepCallRun(s, gap, j);
    OptionsKept(s, gap);
  }

  lemma MidCallStep(s: State, j: JobId, tried: State)
    requires Shape(s) && PhaseInv(s) && PlaceInv(s) && MidCall(s, j, tried) && CallHolds(s.calls[j])
    requires s.calls[j].Sending? ==> tried == s
    ensures MidCall(Advance(s, CallStep(j)), j, tried)
    ensures StatementsDone(Advance(s, CallStep(j)).calls[j]) == StatementsDone(s.calls[j]) + 1
  {
    assert Enabled(s, CallStep(j));
  }

  /** Schedules for one call of Submit that nobody else interferes with by name. */
  predicate CallGaps(j: JobId, gaps: seq<seq<Action>>) {
    |gaps| == 6 && forall g | g in gaps :: CallStep(j) !in g
  }

  /** The state in which the call tries the channel, if it gets that far. */
  function TriedAt(start: State, j: JobId, gaps: seq<seq<Action>>): State
    requires Shape(start) && CallGaps(j, gaps)
  {
    Exec(start, CallSchedule(j, gaps[..2]) + gaps[2])
  }

  function AfterStatements(start: State, j: JobId, gaps: seq<seq<Action>>, k: nat): (s: State)
    requires Shape(start) && CallGaps(j, gaps) && k <= 6
    ensures Shape(s)
  {
    Exec(start, CallSchedule(j, gaps[..k]))
  }

  /** The call has taken `k` statements, or still waits for the mutex at its first one. */
  ghost predicate InCall(start: State, s: State, j: JobId, gaps: seq<seq<Action>>, k: nat)
    requires Shape(start) && CallGaps(j, gaps)
  {
    && 1 <= k <= 6 && s == AfterStatements(start, j, gaps, k) && Inv(s) && j < |s.calls|
    && if s.calls[j].Waiting? then k == 1
       else MidCall(s, j, TriedAt(start, j, gaps)) && StatementsDone(s.calls[j]) == k
  }

  lemma OfferStep(start: State)
    requires Shape(start)
    ensures var s := Exec(start, [CallSubmit]);
            s == Step(start, CallSubmit) && s.calls == start.calls + [Waiting]
  {
    var s := Advance(start, CallSubmit);
    assert [CallSubmit][1..] == [];
    assert Exec(start, [CallSubmit]) == Exec(s, []) == s;
  }

  lemma CallOffered(start: State, gap: seq<Action>)
    requires Inv(start) && CallStep(|start.calls|) !in gap
    ensures var s := Exec(Exec(start, [CallSubmit]), gap);
            Inv(s) && |start.calls| < |s.calls| && s.calls[|start.calls|].Waiting?
  {
    OfferStep(start);
    var s := Step(start, CallSubmit);
    StepInv(start, CallSubmit);
    OthersKeepCallRun(s, gap, |start.calls|);
    ExecInv(s, gap);
  }

  lemma CallBegins(start: State, gaps: seq<seq<Action>>)
    requires Inv(start) && CallGaps(|start.calls|, gaps)
    ensures InCall(start, AfterStatements(start, |start.calls|, gaps, 1), |start.calls|, gaps, 1)
  {
    var j := |start.calls|;
    CallOffered(start, gaps[0]);
    var s := Exec(Exec(start, [CallSubmit]), gaps[0]);
    assert CallSchedule(j, gaps[..0]) == [CallSubmit];
    ScheduleGrows(start, j, gaps, 0);
    ExecOneMore(Exec(start, [CallSubmit]), gaps[0], CallStep(j));
    FirstStatement(s, j, TriedAt(start, j, gaps));
  }

  /** The mutex is taken if it is free. */
  lemma FirstStatement(s: State, j: JobId, tried: State)
    requires Inv(s) && j < |s.calls| && s.calls[j].Waiting?
    ensures var t := Advance(s, CallStep(j));
            && Inv(t) && j < |t.calls|
            && (t.calls[j].Waiting? || (t.calls[j].Inspecting? && MidCall(t, j, tried)))
  {
    if s.lock.Free? {
      StepInv(s, CallStep(j));
      MidCallStart(s, j, tried);
    }
  }

  lemma CallContinues(start: State, s: State, j: JobId, gaps: seq<seq<Action>>, k: nat)
    requires Shape(start) && CallGaps(j, gaps) && InCall(start, s, j, gaps, k) && CallHolds(s.calls[j])
    ensures k < 6 && InCall(start, Exec(s, gaps[k] + [CallStep(j)]), j, gaps, k + 1)
  {
    var tried := TriedAt(start, j, gaps);
    ScheduleGrows(start, j, gaps, k);
    ExecOneMore(s, gaps[k], CallStep(j));
    MidCallGap(s, gaps[k], j, tried);
    ExecInv(s, gaps[k] + [CallStep(j)]);
    ExecInv(s, gaps[k]);
    MidCallStep(Exec(s, gaps[k]), j, tried);
  }

  /**
    What one whole call of Submit does, from `start` to `s`. It took the
    statements its verdict takes, with the gaps in between. It returned nil
    exactly when its job was sent, ErrPoolStopped exactly when the pool was
    stopping, and ErrQueueFull only after it found the channel full, with
    nothing sent since.
  */
  ghost predicate Submitted(start: State, s: State, j: JobId, gaps: seq<seq<Action>>, verdict: Option<Verdict>)
    requires Shape(start) && CallGaps(j, gaps)
  {
    && Inv(s) && j < |s.calls|
    && (verdict.None? ==> s.calls[j].Waiting? && s == AfterStatements(start, j, gaps, 1))
    && (verdict.Some? ==>
          && s.calls[j] == Returned(verdict.value)
          && s == AfterStatements(start, j, gaps, Statements(verdict.value))
          && (verdict.value == PoolStopped <==> s.control.stopping))
    && (verdict == Some(Accepted) <==> j in s.history.sent)
    && (verdict == Some(QueueFull) ==>
          var tried := TriedAt(start, j, gaps);
          |tried.queue| == s.options.capacity && tried.history.sent == s.history.sent)
  }

  function ResultOf(c: Call): Option<Verdict> {
    if c.Returned? then Some(c.verdict) else None
  }

  lemma CallEnds(start: State, s: State, j: JobId, gaps: seq<seq<Action>>, k: nat)
    requires Shape(start) && CallGaps(j, gaps) && InCall(start, s, j, gaps, k) && !CallHolds(s.calls[j])
    ensures Submitted(start, s, j, gaps, ResultOf(s.calls[j]))
  {
    VerdictMeans(s, j, TriedAt(start, j, gaps));
  }

  /** Once the channel is closed, what was accepted is frozen for the rest of the run. */
  lemma {:induction false} AcceptanceFrozen(s: State, schedule: seq<Action>)
    requires Inv(s) && s.control.closed
    ensures var t := Exec(s, schedule);
            && t.control.closed
            && t.accepted == s.accepted == |s.history.sent|
            && t.history.sent == s.history.sent
    decreases |schedule|
  {
    NothingPending(s);
    if schedule != [] {
      var a := schedule[0];
      if Enabled(s, a) {
        StepInv(s, a);
        FrozenStep(s, a);
      }
      AcceptanceFrozen(Advance(s, a), schedule[1..]);
    }
  }

  lemma FrozenStep(s: State, a: Action)
    requires Inv(s) && Enabled(s, a) && s.control.closed
    ensures var t := Step(s, a);
            t.control.closed && t.accepted == s.accepted && t.history.sent == s.history.sent
  {
    if a.CoordinatorStep? {
      ControlEffectOk(s, a.arm);
    }
  }

  // ---------- shutdown accounting ----------

  /** What `Wait` returns when it leaves through `done`. */
  datatype WaitResult = Drained | DrainIncomplete(count: int) | ContextExpired

  function WaitOnDone(s: State): WaitResult {
    if s.control.abandoned > 0 then DrainIncomplete(s.control.abandoned) else Drained
  }

  /** The select of Wait: None while neither arm is ready, and `arm` decides when both are. */
  function WaitSelect(s: State, deadline: int, arm: Arm): Option<WaitResult> {
    if s.control.done && (s.now < deadline || arm.OnChannel?) then Some(WaitOnDone(s))
    else if s.now >= deadline then Some(ContextExpired)
    else None
  }

  /** Everything accepted has been settled exactly once, and the counters say so. */
  ghost predicate FullyAccounted(s: State) {
    && s.accepted == s.settled == s.metrics.processed + s.metrics.deadLettered
    && s.metrics.failed == s.metrics.deadLettered
    && s.metrics.queueDepth == 0
    && s.accepted == |s.history.sent|
    && Elements(s.history.settledOrder) == Elements(s.history.sent)
    && (forall j | j in s.history.sent ::
          j < |s.history.jobs| && s.history.jobs[j].settles == 1
          && s.history.jobs[j].processed + s.history.jobs[j].dead == 1)
  }

  /**
    If Wait returns nil through `done`, every accepted job has been settled
    exactly once, on whichever of its three exits the coordinator took.
  */
  lemma WaitNilMeansDrained(o: Options, now: int, schedule: seq<Action>)
    requires Run(o, now, schedule).control.done
    requires WaitOnDone(Run(o, now, schedule)) == Drained
    ensures FullyAccounted(Run(o, now, schedule))
  {
    RunInv(o, now, schedule);
    DrainedAccounts(Run(o, now, schedule));
  }

  lemma DrainedAccounts(s: State)
    requires Inv(s) && s.control.done && WaitOnDone(s) == Drained
    ensures FullyAccounted(s)
  {
    NothingPending(s);
    UnsettledCount(s);
    assert s.control.lost == {};
    assert Elements(s.history.sent) == s.control.settledThen;
    assert UnsettledJobs(s.history) == {};
    AllSettled(s);
  }

  lemma AllSettled(s: State)
    requires Inv(s) && UnsettledJobs(s.history) == {}
    requires AcceptPending(s) == 0 && DepthPending(s) == 0
    ensures FullyAccounted(s)
  {
    UnsettledCount(s);
    EmptyHands(s);
    forall j | j in s.history.sent ensures j in s.history.settledOrder {
      assert j !in UnsettledJobs(s.history);
    }
  }

  lemma EmptyHands(s: State)
    requires Shape(s) && LedgerInv(s) && s.settled == |s.history.sent| && FifoInv(s.history, s.queue)
    ensures s.queue == []
    ensures Total(Undequeued, s.actors) == Total(Unsettled, s.actors) == Total(HalfDead, s.actors) == 0
  {
    TotalMonotone(Undequeued, Holding, s.actors);
    TotalMonotone(Unsettled, Holding, s.actors);
    TotalMonotone(HalfDead, Holding, s.actors);
  }

  /**
    When `done` is closed the recorded count is the number of accepted jobs that
    were unsettled at the accounting instant, the metric equals it, and Wait
    reports ErrDrainIncomplete exactly when it is positive.
  */
  lemma AbandonmentExact(o: Options, now: int, schedule: seq<Action>)
    requires Run(o, now, schedule).control.done
    ensures AbandonedExactly(Run(o, now, schedule))
  {
    RunInv(o, now, schedule);
    DoneAccounts(Run(o, now, schedule));
  }

  ghost predicate AbandonedExactly(s: State) {
    var c := s.control;
    && c.abandoned == s.metrics.abandoned == |c.lost| <= s.options.capacity + s.options.workers
    && c.lost + c.settledThen == Elements(s.history.sent) && c.lost !! c.settledThen
    && s.accepted == |s.history.sent| == |c.settledThen| + s.metrics.abandoned
    && (WaitOnDone(s).DrainIncomplete? <==> c.lost != {})
    && (c.lost != {} ==> c.exit == TimedOut && WaitOnDone(s).count == |c.lost|)
  }

  /** `done` is closed, and what was lost has been counted: nothing, or exactly that. */
  ghost predicate AccountedFor(s: State) {
    && s.control.done
    && AbandonedExactly(s)
    && (s.metrics.abandoned == 0 ==> FullyAccounted(s))
  }

  lemma DoneIsAccountedFor(s: State)
    requires Inv(s) && s.control.done
    ensures AccountedFor(s)
  {
    DoneAccounts(s);
    if s.metrics.abandoned == 0 {
      DrainedAccounts(s);
    }
  }

  lemma DoneAccounts(s: State)
    requires Inv(s) && s.control.done
    ensures AbandonedExactly(s)
  {
    NothingPending(s);
    LostAndSettled(s);
  }

  /** The lost jobs and those settled in time are all that was accepted. */
  lemma LostAndSettled(s: State)
    requires ControlInv(s.control) && AccountInv(s) && s.control.done
    requires Distinct(s.history.sent) && s.accepted == |s.history.sent|
    ensures AbandonedExactly(s)
  {
    DistinctSize(s.history.sent);
    assert s.control.lost + s.control.settledThen == Elements(s.history.sent);
  }

  /**
    A job counted as abandoned may still settle after `done`. So the two ledgers
    together never miss an accepted job, and add up to it exactly as long as
    none of the lost jobs has settled since.
  */
  lemma LedgersAfterDone(o: Options, now: int, schedule: seq<Action>)
    requires Run(o, now, schedule).control.done
    ensures var s := Run(o, now, schedule);
            && s.settled + s.metrics.abandoned == s.accepted + |s.control.lost * Elements(s.history.settledOrder)|
            && (s.settled + s.metrics.abandoned == s.accepted
                <==> s.control.lost !! Elements(s.history.settledOrder))
  {
    AbandonmentExact(o, now, schedule);
    RunInv(o, now, schedule);
    var s := Run(o, now, schedule);
    UnsettledCount(s);
    DistinctSize(s.history.settledOrder);
    OverlapSize(Elements(s.history.settledOrder), s.control.settledThen, s.control.lost);
  }

  lemma OverlapSize(all: set<JobId>, early: set<JobId>, lost: set<JobId>)
    requires early <= all <= early + lost && early !! lost
    ensures |all| == |early| + |lost * all|
    ensures |lost * all| == 0 <==> lost !! all
  {
    assert all == early + lost * all;
  }

  /** The accounting is made once: no later step changes it. */
  lemma {:induction false} AccountingOnce(s: State, schedule: seq<Action>)
    requires Inv(s) && s.control.coordinator.Stage() >= 16
    ensures var t := Exec(s, schedule);
            && t.control.coordinator.Stage() >= 16
            && (s.control.done ==> t.control.done)
            && t.control.lost == s.control.lost
            && t.control.abandoned == s.control.abandoned
            && t.metrics.abandoned == s.metrics.abandoned
            && t.control.exit == s.control.exit
    decreases |schedule|
  {
    if schedule != [] {
      var a := schedule[0];
      if Enabled(s, a) {
        StepInv(s, a);
        AccountingStep(s, a);
      }
      AccountingOnce(Advance(s, a), schedule[1..]);
    }
  }

  lemma AccountingStep(s: State, a: Action)
    requires Inv(s) && Enabled(s, a) && s.control.coordinator.Stage() >= 16
    ensures var t := Step(s, a);
            && t.control.coordinator.Stage() >= 16
            && (s.control.done ==> t.control.done)
            && t.control.lost == s.control.lost
            && t.control.abandoned == s.control.abandoned
            && t.metrics.abandoned == s.metrics.abandoned
            && t.control.exit == s.control.exit
  {
    if a.CoordinatorStep? {
      ControlEffectOk(s, a.arm);
    } else {
      ControlUntouched(s, a);
    }
  }

  /** From the accounting on, no schedule changes what was accepted, lost or recorded. */
  lemma RecordedOnce(o: Options, now: int, before: seq<Action>, after: seq<Action>)
    requires Run(o, now, before).control.coordinator.Stage() >= 16
    ensures var s, t := Run(o, now, before), Run(o, now, before + after);
            && t.control.lost == s.control.lost
            && t.control.abandoned == s.control.abandoned == t.metrics.abandoned == s.metrics.abandoned
            && t.control.exit == s.control.exit
            && t.accepted == s.accepted && t.history.sent == s.history.sent
            && (s.control.done ==> t.control.done)
  {
    RunInv(o, now, before);
    ExecConcat(Init(Clamp(o), now), before, after);
    AccountingOnce(Run(o, now, before), after);
    AcceptanceFrozen(Run(o, now, before), after);
  }
}
