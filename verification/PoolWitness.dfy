/**
  Runs that show that the conditions of two theorems cannot be dropped: a job
  counted as abandoned may settle afterwards, so that it is in both ledgers; and
  with the pool's observation of the cancellation later than the margin allows,
  the deadline can pass before the pool is done.
*/
module PoolWitness {
  import opened Basics
  import opened PoolModel
  import opened PoolInvariant
  import PoolSafety
  import opened PoolTiming
  import opened PoolStuck
  import opened Shutdown
  import Sums

  // ---------- a job in both ledgers ----------

  /**
    After `run` the pool is open, one call of Submit stands at `c`, the channel
    and the mutex are as said, and the first worker stands at `p`.
  */
  ghost predicate At(o: Options, run: seq<Action>, c: Call, queue: seq<JobId>, lock: Holder, p: Actor) {
    var s := Run(o, 0, run);
    && s.options == Clamp(o) && s.started && !s.control.stopping && !s.control.closed && !s.control.cancelled
    && s.calls == [c] && s.queue == queue && s.lock == lock && s.actors[0] == p
  }

  lemma Offered(o: Options)
    ensures At(o, [Start] + [CallSubmit], Waiting, [], Free, Receiving)
  {
    assert [Start][1..] == [];
    ExecOneMore(Init(Clamp(o), 0), [Start], CallSubmit);
    assert Exec(Init(Clamp(o), 0), [Start]) == Advance(Init(Clamp(o), 0), Start);
  }

  /** The next statement of the call. */
  lemma CallMoves(o: Options, run: seq<Action>, c: Call, queue: seq<JobId>, lock: Holder, p: Actor)
    requires At(o, run, c, queue, lock, p) && !c.Returned? && (c.Waiting? ==> lock.Free?)
    ensures var e := EffectOfCall(c, false, false, |queue| < Clamp(o).capacity);
            At(o, run + [CallStep(0)], e.next, if e.sends then queue + [0] else queue,
               AfterLock(e.lock, HeldByCall(0), lock), p)
  {
    ExecOneMore(Init(Clamp(o), 0), run, CallStep(0));
    assert Enabled(Run(o, 0, run), CallStep(0));
  }

  lemma WorkerReceives(o: Options, run: seq<Action>, c: Call, lock: Holder)
    requires At(o, run, c, [0], lock, Receiving)
    ensures At(o, run + [ActorStep(0)], c, [], lock, Received(0))
  {
    ExecOneMore(Init(Clamp(o), 0), run, ActorStep(0));
    assert Enabled(Run(o, 0, run), ActorStep(0));
  }

  /** The next statement of the worker; where it leads does not depend on the record of the job. */
  lemma WorkerMoves(o: Options, run: seq<Action>, c: Call, lock: Holder, p: Actor)
    requires At(o, run, c, [], lock, p) && Busy(p) && (p.Received? ==> lock.Free?)
    ensures var e := EffectOfActor(Clamp(o), false, false, p, NEW_RECORD);
            At(o, run + [ActorStep(0)], c, [], AfterLock(e.lock, HeldByActor(0), lock), e.next)
  {
    ExecOneMore(Init(Clamp(o), 0), run, ActorStep(0));
    assert Enabled(Run(o, 0, run), ActorStep(0));
  }

  lemma JobAccepted(o: Options) returns (run: seq<Action>)
    ensures At(o, run, Returned(Accepted), [0], Free, Receiving)
  {
    Offered(o);
    run := [Start] + [CallSubmit];
    CallMoves(o, run, Waiting, [], Free, Receiving);
    run := run + [CallStep(0)];
    CallMoves(o, run, Inspecting, [], HeldByCall(0), Receiving);
    run := run + [CallStep(0)];
    CallMoves(o, run, Sending, [], HeldByCall(0), Receiving);
    run := run + [CallStep(0)];
    CallMoves(o, run, Sent, [0], HeldByCall(0), Receiving);
    run := run + [CallStep(0)];
    CallMoves(o, run, Counted, [0], HeldByCall(0), Receiving);
    run := run + [CallStep(0)];
    CallMoves(o, run, Returning(Accepted), [0], HeldByCall(0), Receiving);
    run := run + [CallStep(0)];
  }

  lemma JobRunning(o: Options) returns (run: seq<Action>)
    ensures At(o, run, Returned(Accepted), [], Free, Running(0, 1))
  {
    var c := Returned(Accepted);
    run := JobAccepted(o);
    WorkerReceives(o, run, c, Free);
    run := run + [ActorStep(0)];
    WorkerMoves(o, run, c, Free, Received(0));
    run := run + [ActorStep(0)];
    WorkerMoves(o, run, c, HeldByActor(0), Locked(0));
    run := run + [ActorStep(0)];
    WorkerMoves(o, run, c, HeldByActor(0), Lowered(0));
    run := run + [ActorStep(0)];
    WorkerMoves(o, run, c, Free, Checking(0));
    run := run + [ActorStep(0)];
    WorkerMoves(o, run, c, Free, Looping(0, 1, None));
    run := run + [ActorStep(0)];
  }

  /** The job is in its body when the pool is told to shut down. */
  lemma CancelledWhileRunning(o: Options) returns (run: seq<Action>)
    ensures var s := Run(o, 0, run);
            s.started && s.parentDone && |s.calls| == 1 && s.actors[0] == Running(0, 1)
  {
    run := JobRunning(o);
    ExecOneMore(Init(Clamp(o), 0), run, CancelParent);
    run := run + [CancelParent];
  }

  ghost predicate InBothLedgers(o: Options, run: seq<Action>, later: seq<Action>) {
    var s, t := Run(o, 0, run), Exec(Run(o, 0, run), later);
    && s.control.done && s.settled == 0 && s.metrics.abandoned == s.accepted == 1
    && t.settled == t.metrics.abandoned == t.accepted == 1
  }

  /**
    Whatever the options, a job counted as abandoned may settle after `done`: one
    accepted job, and one in each of the two ledgers.
  */
  lemma AbandonedMaySettle(o: Options)
    ensures exists run, later :: InBothLedgers(o, run, later)
  {
    var before := CancelledWhileRunning(o);
    StuckIsReported(o, 0, before, 0);
    var s := Run(o, 0, before);
    var after :| Unaided(s, after) && Exec(s, after).control.done && 0 in Exec(s, after).control.lost
                 && 0 !in Exec(s, after).history.settledOrder;
    ExecConcat(Init(Clamp(o), 0), before, after);
    NobodyOffers(s, after);
    OneJob(o, before + after);
    var later := SettlesAfterAll(o, 0, before + after);
    assert InBothLedgers(o, before + after, later);
  }

  /** There is only the one job. */
  lemma OneJob(o: Options, run: seq<Action>)
    requires var t := Run(o, 0, run);
             t.control.done && |t.calls| == 1 && 0 in t.control.lost && 0 !in t.history.settledOrder
    ensures var t := Run(o, 0, run); t.accepted == 1 && t.metrics.abandoned == 1 && t.settled == 0
  {
    RunInv(o, 0, run);
    PoolSafety.AbandonmentExact(o, 0, run);
    var t := Run(o, 0, run);
    assert 0 in Sums.Elements(t.history.sent);
    NothingPending(t);
    OnlyTheFirst(t);
  }

  lemma OnlyTheFirst(t: State)
    requires Shape(t) && PlaceInv(t) && |t.calls| == 1 && 0 in t.history.sent && 0 !in t.history.settledOrder
    ensures |t.history.sent| == 1 && t.history.settledOrder == []
  {
    Sums.DistinctBelow(t.history.sent, 1);
    Sums.DistinctSize(t.history.settledOrder);
    assert Sums.Elements(t.history.settledOrder) == {};
  }

  // ---------- a deadline that passes too early ----------

  /** A pool whose workers have not exited, before the end of its unwind window. */
  ghost predicate Dawdling(s: State) {
    && s.started && s.parentDone && !s.workersDone
    && 1 <= s.control.coordinator.Stage() <= 11
    && (s.lock.Free? || s.lock.HeldByCoordinator?)
  }

  /** The coordinator takes its next step, as late as it is punctual to do so. */
  lemma DawdleStep(s: State) returns (t: State)
    requires Inv(s) && Dawdling(s) && !s.control.coordinator.UnwindSelect?
    ensures PunctualTick(s, Lull(s))
    ensures t == Advance(Advance(s, Tick(Lull(s))), CoordinatorStep(OnTimer))
    ensures Inv(t) && Dawdling(t) && t.control.coordinator.Stage() > s.control.coordinator.Stage()
    ensures t.control.observedAt == if s.control.coordinator.AwaitingCancel? then s.now else s.control.observedAt
  {
    var later := TickInv(s, Lull(s));
    OnTimerMoves(later);
    t := Step(later, CoordinatorStep(OnTimer));
    StepInv(later, CoordinatorStep(OnTimer));
  }

  lemma TickOnly(s: State, d: nat)
    requires Shape(s)
    ensures Advance(s, Tick(d)) == Step(s, Tick(d)) == s.(now := s.now + d)
  {
  }

  lemma TickInv(s: State, d: nat) returns (t: State)
    requires Inv(s)
    ensures t == Advance(s, Tick(d)) == s.(now := s.now + d) && Inv(t)
  {
    TickOnly(s, d);
    StepInv(s, Tick(d));
    t := Step(s, Tick(d));
  }

  lemma OnTimerMoves(s: State)
    requires Shape(s) && LockInv(s) && Dawdling(s) && !s.control.coordinator.UnwindSelect?
    requires s.control.coordinator.DrainSelect? ==> s.now >= s.control.timer
    ensures CoordinatorEnabled(s, OnTimer)
    ensures var t := StepCoordinator(s, OnTimer);
            && Dawdling(t) && t.control.coordinator.Stage() > s.control.coordinator.Stage()
            && t.control.observedAt == if s.control.coordinator.AwaitingCancel? then s.now else s.control.observedAt
  {
    NextOnTimer(s.options, s.control, s.now, s.accepted, s.settled, UnsettledJobs(s.history), SettledJobs(s.history));
  }

  /** The control alone. */
  lemma NextOnTimer(o: Options, c: Control, now: int, accepted: int, settled: int,
                    lost: set<JobId>, settledThen: set<JobId>)
    requires 1 <= c.coordinator.Stage() <= 10
    ensures var next := NextControl(c, OnTimer, o, now, accepted, settled, lost, settledThen);
            && c.coordinator.Stage() < next.coordinator.Stage() <= 11
            && next.observedAt == if c.coordinator.AwaitingCancel? then now else c.observedAt
  {
  }

  lemma LastTick(s: State, d: nat)
    requires Shape(s) && PunctualTick(s, d)
    ensures Unaided(s, [Tick(d)]) && Exec(s, [Tick(d)]) == s.(now := s.now + d)
  {
    var t := Advance(s, Tick(d));
    TickOnly(s, d);
    assert [Tick(d)][1..] == [];
    assert Exec(t, []) == t && Punctual(t, []);
  }

  lemma LastLull(s: State)
    requires s.control.coordinator.UnwindSelect? && !s.drained
    ensures PunctualTick(s, Lull(s)) && s.now + Lull(s) >= s.control.timer
  {
  }

  /** Both timers run out while the workers stay. */
  lemma {:induction false} Dawdle(s: State) returns (schedule: seq<Action>)
    requires Inv(s) && Dawdling(s)
    ensures Unaided(s, schedule)
    ensures var t := Exec(s, schedule);
            && t.control.coordinator.UnwindSelect? && t.now >= t.control.timer
            && t.control.observedAt == if s.control.coordinator.AwaitingCancel? then s.now else s.control.observedAt
    decreases 11 - s.control.coordinator.Stage()
  {
    if s.control.coordinator.UnwindSelect? {
      schedule := [Tick(Lull(s))];
      LastLull(s);
      LastTick(s, Lull(s));
    } else {
      var t := DawdleStep(s);
      var rest := Dawdle(t);
      schedule := [Tick(Lull(s)), CoordinatorStep(OnTimer)] + rest;
      AfterLull(s, Lull(s), CoordinatorStep(OnTimer), rest);
    }
  }

  /** The deadline has passed and the pool, which saw the cancellation `gap` after the budget, is still draining. */
  ghost predicate MissesDeadline(o: Options, now: int, events: seq<Event>, gap: int) {
    Punctual(Init(Clamp(o), now), PoolPart(events)) && StillDraining(ProcessRun(o, now, events), gap)
  }

  ghost predicate StillDraining(s: System, gap: int) {
    && s.budget.ready && s.pool.control.coordinator.Stage() >= 2
    && s.pool.control.observedAt - s.budget.observedAt == gap
    && s.pool.now > s.budget.end && !s.pool.control.done
  }

  /** The budget sees the cancellation at once, the pool not for a while. */
  function Opening(gap: nat): seq<Event> {
    Events([Start, CancelParent]) + [BudgetEvent] + Events([Tick(gap)])
  }

  /** A pool that has been told to stop `gap` ago and has not seen it, beside a budget that saw it at once. */
  ghost predicate Opened(s: System, o: Options, now: int, gap: nat) {
    && Shape(s.pool) && Dawdling(s.pool) && s.pool.control.coordinator.AwaitingCancel? && s.pool.now == now + gap
    && s.budget == Budget(o.drainTimeout, WORKER_SHUTDOWN_MARGIN, true,
                          now + o.drainTimeout + WORKER_SHUTDOWN_MARGIN, now)
  }

  lemma StartedAndCancelled(o: Options, now: int)
    ensures var s := Advance(Advance(Init(Clamp(o), now), Start), CancelParent);
            Dawdling(s) && s.control.coordinator.AwaitingCancel? && s.now == now
  {
  }

  lemma AfterOpening(o: Options, now: int, gap: nat)
    ensures Opened(ProcessRun(o, now, Opening(gap)), o, now, gap)
    ensures PoolPart(Opening(gap)) == [Start, CancelParent, Tick(gap)]
  {
    var init, events := InitSystem(o, o.drainTimeout, WORKER_SHUTDOWN_MARGIN, now), Opening(gap);
    StartedAndCancelled(o, now);
    OpeningSpelled(gap);
    assert ExecSystem(init, events) == ExecSystem(AdvanceSystem(init, PoolEvent(Start)), events[1..]);
    var s := AdvanceSystem(AdvanceSystem(init, PoolEvent(Start)), PoolEvent(CancelParent));
    assert ExecSystem(init, events) == ExecSystem(s, events[2..]);
    assert ExecSystem(init, events) == ExecSystem(AdvanceSystem(s, BudgetEvent), events[3..]);
    var t := AdvanceSystem(AdvanceSystem(s, BudgetEvent), PoolEvent(Tick(gap)));
    assert ExecSystem(init, events) == ExecSystem(t, events[4..]) == t;
    assert t.pool == s.pool.(now := now + gap);
  }

  lemma OpeningSpelled(gap: nat)
    ensures var e := Opening(gap);
            && |e| == 4 && e[0] == PoolEvent(Start) && e[1] == PoolEvent(CancelParent) && e[2] == BudgetEvent
            && e[3] == PoolEvent(Tick(gap))
            && e[1..][1..] == e[2..] && e[2..][1..] == e[3..] && e[3..][1..] == e[4..] == []
    ensures PoolPart(Opening(gap)) == [Start, CancelParent, Tick(gap)]
  {
    assert [Start, CancelParent][1..] == [CancelParent] && [CancelParent][1..] == [] && [Tick(gap)][1..] == [];
    PoolPartOfEvents(Events([Start, CancelParent]) + [BudgetEvent], [Tick(gap)]);
    assert (Events([Start, CancelParent]) + [BudgetEvent])[1..] == [PoolEvent(CancelParent), BudgetEvent];
    assert [PoolEvent(CancelParent), BudgetEvent][1..] == [BudgetEvent];
    assert [BudgetEvent][1..] == [];
  }

  lemma OpeningIsPunctual(o: Options, now: int, gap: nat)
    ensures Punctual(Init(Clamp(o), now), [Start, CancelParent, Tick(gap)])
  {
    StartedAndCancelled(o, now);
    var run, s := [Start, CancelParent, Tick(gap)], Init(Clamp(o), now);
    assert run[1..] == [CancelParent, Tick(gap)] && run[1..][1..] == [Tick(gap)] && run[1..][1..][1..] == [];
    assert Punctual(Advance(Advance(s, Start), CancelParent), run[1..][1..]);
    assert Punctual(Advance(s, Start), run[1..]);
  }

  lemma Misses(o: Options, now: int, gap: nat) returns (events: seq<Event>)
    requires gap > Slack(o)
    ensures MissesDeadline(o, now, events, gap)
  {
    AfterOpening(o, now, gap);
    PoolIsIndependent(InitSystem(o, o.drainTimeout, WORKER_SHUTDOWN_MARGIN, now), Opening(gap));
    RunInv(o, now, PoolPart(Opening(gap)));
    var rest := Dawdle(ProcessRun(o, now, Opening(gap)).pool);
    events := Opening(gap) + Events(rest);
    DawdledTooLong(o, now, gap, rest);
  }

  lemma DawdledTooLong(o: Options, now: int, gap: nat, rest: seq<Action>)
    requires gap > Slack(o)
    requires var s := ProcessRun(o, now, Opening(gap)).pool;
             var t := Exec(s, rest);
             && Punctual(s, rest) && t.control.coordinator.UnwindSelect?
             && t.now >= t.control.timer && t.control.observedAt == s.now
    ensures MissesDeadline(o, now, Opening(gap) + Events(rest), gap)
  {
    AfterOpening(o, now, gap);
    PoolGoesOn(o, now, Opening(gap), rest);
    WholeRun(o, now, gap, rest);
    BothTimersTook(o, now, PoolPart(Opening(gap) + Events(rest)));
    var s := ProcessRun(o, now, Opening(gap));
    TooLate(o, now, gap, s, Exec(s.pool, rest));
  }

  lemma TooLate(o: Options, now: int, gap: nat, s: System, t: State)
    requires gap > Slack(o) && Opened(s, o, now, gap)
    requires t.control.coordinator.UnwindSelect? && t.control.observedAt == s.pool.now && !t.control.done
    requires t.now >= t.control.observedAt + ShutdownTime(Clamp(o))
    ensures StillDraining(s.(pool := t), gap)
  {
  }

  /** The pool's part of the whole run. */
  lemma WholeRun(o: Options, now: int, gap: nat, rest: seq<Action>)
    requires Punctual(ProcessRun(o, now, Opening(gap)).pool, rest)
    ensures var run := PoolPart(Opening(gap) + Events(rest));
            && Punctual(Init(Clamp(o), now), run)
            && Run(o, now, run) == Exec(ProcessRun(o, now, Opening(gap)).pool, rest)
  {
    var init := InitSystem(o, o.drainTimeout, WORKER_SHUTDOWN_MARGIN, now);
    AfterOpening(o, now, gap);
    PoolIsIndependent(init, Opening(gap));
    PoolPartOfEvents(Opening(gap), rest);
    OpeningIsPunctual(o, now, gap);
    PunctualConcat(init.pool, PoolPart(Opening(gap)), rest);
    ExecConcat(init.pool, PoolPart(Opening(gap)), rest);
  }

  lemma BothTimersTook(o: Options, now: int, run: seq<Action>)
    requires var t := Run(o, now, run); t.control.coordinator.UnwindSelect? && t.now >= t.control.timer
    ensures var t := Run(o, now, run); t.now >= t.control.observedAt + ShutdownTime(Clamp(o)) && !t.control.done
  {
    InitInv(Clamp(o), now);
    NotEarlyRun(Init(Clamp(o), now), run);
    RunInv(o, now, run);
    UnwindIsLate(Clamp(o), Run(o, now, run).control, Run(o, now, run).now);
  }

  lemma UnwindIsLate(o: Options, c: Control, now: int)
    requires ControlInv(c) && NotEarly(o, c, now) && c.coordinator.UnwindSelect? && now >= c.timer
    ensures now >= c.observedAt + ShutdownTime(o) && !c.done
  {
  }

  /**
    The bound on the two observations is exact, for all options: the deadline can
    pass before the pool is done if and only if the pool saw the cancellation
    later than the slack allows.
  */
  lemma MarginIsTight(o: Options, now: int, gap: nat)
    ensures (exists events :: MissesDeadline(o, now, events, gap)) <==> gap > Slack(o)
  {
    if gap > Slack(o) {
      var events := Misses(o, now, gap);
    } else {
      forall events ensures !MissesDeadline(o, now, events, gap) {
        if MissesDeadline(o, now, events, gap) {
          DoneByDeadline(o, now, events);
          assert false;
        }
      }
    }
  }
}
