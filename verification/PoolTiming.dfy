/**
  How long shutdown takes. Time passes by `Tick`; a schedule is punctual when no
  time passes while the coordinator has a step to take or waits for the mutex.
  Jobs and hooks may be stuck forever; only the holder of the mutex the
  coordinator waits for has to leave its critical section in no time.
*/
module PoolTiming {
  import opened PoolModel
  import opened PoolInvariant

  /** May `d` pass in state `s` without making the coordinator late? */
  predicate PunctualTick(s: State, d: nat) {
    match s.control.coordinator
    case Dormant => true
    case AwaitingCancel => true
    case DrainSelect => d == 0 || (!s.workersDone && s.now + d <= s.control.timer)
    case UnwindSelect => d == 0 || (!s.drained && s.now + d <= s.control.timer)
    case Finished => true
    case _ => d == 0
  }

  predicate PunctualAction(s: State, a: Action) {
    a.Tick? ==> PunctualTick(s, a.duration)
  }

  ghost predicate Punctual(s: State, schedule: seq<Action>)
    requires Shape(s)
    decreases |schedule|
  {
    schedule == [] || (PunctualAction(s, schedule[0]) && Punctual(Advance(s, schedule[0]), schedule[1..]))
  }

  lemma {:induction false} PunctualConcat(s: State, before: seq<Action>, after: seq<Action>)
    requires Shape(s) && Punctual(s, before) && Punctual(Exec(s, before), after)
    ensures Punctual(s, before + after)
    decreases |before|
  {
    if before == [] {
      assert before + after == after;
    } else {
      assert (before + after)[1..] == before[1..] + after;
      PunctualConcat(Advance(s, before[0]), before[1..], after);
    }
  }

  /** The two waits of the coordinator, from the moment it saw the cancellation. */
  function ShutdownTime(o: Options): (r: int)
    ensures r == o.drainTimeout + 100_000_000
  {
    o.drainTimeout + UNWIND_WINDOW
  }

  /** The shutdown is never later than its two timeouts allow. */
  ghost predicate OnTime(o: Options, c: Control, now: int) {
    var stage := c.coordinator.Stage();
    var drainEnd := c.observedAt + o.drainTimeout;
    && (2 <= stage <= 6 ==> now == c.observedAt)
    && (stage == 7 ==> now <= c.timer == drainEnd)
    && (8 <= stage <= 10 ==> now <= drainEnd)
    && (stage == 11 ==> now <= c.timer <= drainEnd + UNWIND_WINDOW)
    && (12 <= stage <= 17 ==> now <= drainEnd + UNWIND_WINDOW)
    && (stage == 18 ==> c.doneAt <= drainEnd + UNWIND_WINDOW)
  }

  /** Jobs get at least the whole drain timeout, and what is lost has had the unwind window too. */
  ghost predicate NotEarly(o: Options, c: Control, now: int) {
    var stage := c.coordinator.Stage();
    var drainEnd := c.observedAt + o.drainTimeout;
    && (stage >= 2 ==> c.observedAt <= now)
    && (stage == 7 ==> drainEnd <= c.timer)
    && (8 <= stage && c.exit != WorkersFinished ==> drainEnd <= now)
    && (stage == 11 ==> drainEnd + UNWIND_WINDOW <= c.timer)
    && (stage == 12 || stage == 13 || c.exit == TimedOut ==> drainEnd + UNWIND_WINDOW <= now)
    && (c.done ==> c.observedAt <= c.doneAt <= now)
  }

  /** A select takes its timer arm only when the timer has expired. */
  predicate TimerReady(c: Control, arm: Arm, now: int) {
    arm.OnTimer? && (c.coordinator.DrainSelect? || c.coordinator.UnwindSelect?) ==> now >= c.timer
  }

  /** One step of the coordinator, on the control alone. */
  lemma NextIsTimely(o: Options, c: Control, arm: Arm, now: int, accepted: int, settled: int,
                     lost: set<JobId>, settledThen: set<JobId>)
    requires ValidOptions(o) && ControlInv(c)
    ensures var next := NextControl(c, arm, o, now, accepted, settled, lost, settledThen);
            && (OnTime(o, c, now) ==> OnTime(o, next, now))
            && (NotEarly(o, c, now) && TimerReady(c, arm, now) ==> NotEarly(o, next, now))
  {
  }

  lemma {:induction false} NotEarlyRun(s: State, schedule: seq<Action>)
    requires Inv(s) && NotEarly(s.options, s.control, s.now)
    ensures var t := Exec(s, schedule); t.options == s.options && NotEarly(t.options, t.control, t.now)
    decreases |schedule|
  {
    if schedule != [] {
      if Enabled(s, schedule[0]) {
        StepInv(s, schedule[0]);
        NotEarlyStep(s, schedule[0]);
      }
      NotEarlyRun(Advance(s, schedule[0]), schedule[1..]);
    }
  }

  lemma NotEarlyStep(s: State, a: Action)
    requires Shape(s) && ControlInv(s.control) && Enabled(s, a) && NotEarly(s.options, s.control, s.now)
    ensures var t := Step(s, a); t.options == s.options && NotEarly(t.options, t.control, t.now)
  {
    if a.CoordinatorStep? {
      NextIsTimely(s.options, s.control, a.arm, s.now, s.accepted, s.settled,
                   UnsettledJobs(s.history), SettledJobs(s.history));
    } else {
      ControlUntouched(s, a);
    }
  }

  /**
    A job is cut short, or a job is given up, only after the drain timeout has
    passed since the cancellation was seen; for the latter the unwind window too.
  */
  lemma FullDrainTime(o: Options, now: int, schedule: seq<Action>)
    ensures var s := Run(o, now, schedule);
            var c := s.control;
            && (c.cancelled && c.exit != WorkersFinished ==> s.now >= c.observedAt + s.options.drainTimeout)
            && ((exists j | 0 <= j < |s.history.jobs| :: s.history.jobs[j].cut)
                ==> s.now >= c.observedAt + s.options.drainTimeout)
            && (c.lost != {} && c.exit != NoExit ==> s.now >= c.observedAt + ShutdownTime(s.options))
  {
    InitInv(Clamp(o), now);
    NotEarlyRun(Init(Clamp(o), now), schedule);
    RunInv(o, now, schedule);
    var s := Run(o, now, schedule);
    DrainedFully(s);
    if s.control.lost != {} && s.control.exit != NoExit {
      LostMeansTimedOut(s);
    }
  }

  lemma DrainedFully(s: State)
    requires ControlInv(s.control) && NotEarly(s.options, s.control, s.now) && CutInv(s)
    ensures var c := s.control;
            && (c.cancelled && c.exit != WorkersFinished ==> s.now >= c.observedAt + s.options.drainTimeout)
            && ((exists j | 0 <= j < |s.history.jobs| :: s.history.jobs[j].cut)
                ==> s.now >= c.observedAt + s.options.drainTimeout)
            && (c.exit == TimedOut ==> s.now >= c.observedAt + ShutdownTime(s.options))
  {
  }

  /** Only the third exit loses anything. */
  lemma LostMeansTimedOut(s: State)
    requires AccountInv(s) && s.control.lost != {} && s.control.exit != NoExit
    ensures s.control.exit == TimedOut
  {
  }

  lemma {:induction false} OnTimeRun(s: State, schedule: seq<Action>)
    requires Inv(s) && OnTime(s.options, s.control, s.now) && Punctual(s, schedule)
    ensures var t := Exec(s, schedule); t.options == s.options && OnTime(t.options, t.control, t.now)
    decreases |schedule|
  {
    if schedule != [] {
      if Enabled(s, schedule[0]) {
        StepInv(s, schedule[0]);
        OnTimeStep(s, schedule[0]);
      }
      OnTimeRun(Advance(s, schedule[0]), schedule[1..]);
    }
  }

  lemma OnTimeStep(s: State, a: Action)
    requires Shape(s) && ControlInv(s.control) && Enabled(s, a) && OnTime(s.options, s.control, s.now)
    requires PunctualAction(s, a)
    ensures var t := Step(s, a); t.options == s.options && OnTime(t.options, t.control, t.now)
  {
    if a.CoordinatorStep? {
      NextIsTimely(s.options, s.control, a.arm, s.now, s.accepted, s.settled,
                   UnsettledJobs(s.history), SettledJobs(s.history));
    } else {
      ControlUntouched(s, a);
    }
  }

  /**
    In every punctual run the pool is done once the drain timeout and the unwind
    window have passed since the coordinator saw the cancellation, whatever the
    jobs and hooks do.
  */
  lemma ShutdownBound(o: Options, now: int, schedule: seq<Action>)
    requires Punctual(Init(Clamp(o), now), schedule)
    ensures WithinBound(Run(o, now, schedule))
  {
    var s := Init(Clamp(o), now);
    InitInv(Clamp(o), now);
    OnTimeRun(s, schedule);
    NotEarlyRun(s, schedule);
    RunInv(o, now, schedule);
    TimelyIsWithin(Run(o, now, schedule));
  }

  ghost predicate WithinBound(s: State) {
    var c := s.control;
    var end := c.observedAt + ShutdownTime(s.options);
    && (c.done ==> c.observedAt <= c.doneAt <= end)
    && (c.coordinator.Stage() >= 2 && s.now > end ==> c.done)
  }

  lemma TimelyIsWithin(s: State)
    requires ControlInv(s.control) && ValidOptions(s.options)
    requires OnTime(s.options, s.control, s.now) && NotEarly(s.options, s.control, s.now)
    ensures WithinBound(s)
  {
  }

  lemma ObservedStep(s: State, a: Action)
    requires Shape(s) && ControlInv(s.control) && Enabled(s, a) && s.control.coordinator.Stage() >= 2
    requires s.control.coordinator.Stage() >= 1 ==> s.started
    ensures var t := Step(s, a);
            t.control.coordinator.Stage() >= 2 && t.control.observedAt == s.control.observedAt
  {
    if !a.CoordinatorStep? {
      ControlUntouched(s, a);
    }
  }

  /** The cancellation is seen once. */
  lemma {:induction false} ObservedOnce(s: State, schedule: seq<Action>)
    requires Inv(s) && s.control.coordinator.Stage() >= 2
    ensures var t := Exec(s, schedule);
            t.control.coordinator.Stage() >= 2 && t.control.observedAt == s.control.observedAt
    decreases |schedule|
  {
    if schedule != [] {
      var a := schedule[0];
      if Enabled(s, a) {
        StepInv(s, a);
        ObservedStep(s, a);
      }
      ObservedOnce(Advance(s, a), schedule[1..]);
    }
  }
}
