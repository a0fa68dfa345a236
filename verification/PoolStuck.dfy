/**
  What the pool does by itself: no job body and no hook returns, and nobody
  calls Submit. It is done all the same, and what is stuck is counted as lost.
*/
module PoolStuck {
  import opened PoolModel
  import opened PoolInvariant
  import opened PoolSafety
  import opened PoolProgress
  import opened PoolTiming
  import Sums

  /** Time passes, or the pool or a submitter inside a call takes a step. */
  predicate Alone(a: Action) {
    a.Tick? || (Internal(a) && !a.BodyReturns? && !a.HookReturns?)
  }

  ghost predicate Unaided(s: State, schedule: seq<Action>)
    requires Shape(s)
  {
    Punctual(s, schedule) && forall a | a in schedule :: Alone(a)
  }

  // ---------- the pool is done all the same ----------

  /** How long the coordinator can only wait for its timer. */
  function Lull(s: State): nat {
    var c := s.control.coordinator;
    var waits := (c.DrainSelect? && !s.workersDone) || (c.UnwindSelect? && !s.drained);
    if waits && s.now < s.control.timer then s.control.timer - s.now else 0
  }

  /** After the lull the coordinator can move, or the holder of the mutex it waits for. */
  lemma NextMove(s: State) returns (a: Action)
    requires Shape(s) && LockInv(s) && PhaseInv(s) && s.started && s.parentDone && !s.control.done
    ensures PunctualTick(s, Lull(s))
    ensures Internal(a) && Alone(a) && Enabled(Step(s, Tick(Lull(s))), a)
  {
    var c := s.control.coordinator;
    if c.Acquiring? && !s.lock.Free? {
      a := HolderMoves(s);
      assert Step(s, Tick(0)) == s;
    } else if (c.DrainSelect? && s.workersDone) || (c.UnwindSelect? && s.drained) {
      a := CoordinatorStep(OnChannel);
    } else {
      a := CoordinatorStep(OnTimer);
    }
  }

  lemma AfterLull(s: State, d: nat, a: Action, rest: seq<Action>)
    requires Shape(s) && PunctualTick(s, d) && Alone(a) && !a.Tick?
    requires Unaided(Advance(Advance(s, Tick(d)), a), rest)
    ensures Exec(s, [Tick(d), a] + rest) == Exec(Advance(Advance(s, Tick(d)), a), rest)
    ensures Unaided(s, [Tick(d), a] + rest)
  {
    var schedule := [Tick(d), a] + rest;
    assert schedule[1..] == [a] + rest;
    assert schedule[1..][1..] == rest;
    assert Punctual(Advance(s, Tick(d)), schedule[1..]);
  }

  lemma TickThenMove(s: State, d: nat, a: Action) returns (t: State)
    requires Inv(s) && s.started && s.parentDone && Internal(a) && Enabled(Step(s, Tick(d)), a)
    ensures t == Advance(Advance(s, Tick(d)), a)
    ensures Inv(t) && t.started && t.parentDone && Measure(t) < Measure(s)
  {
    var later := Step(s, Tick(d));
    StepInv(s, Tick(d));
    ExternalStepCost(s, Tick(d));
    StepInv(later, a);
    InternalStepDecreases(later, a);
    AdvanceClock(later, a);
    StaysStarted(later, a);
    t := Step(later, a);
  }

  /**
    However many bodies and hooks are stuck, from any state after Start and the
    cancellation the pool is done in a punctual run of its own steps.
  */
  lemma {:induction false} DoneAnyway(s: State) returns (schedule: seq<Action>)
    requires Inv(s) && s.started && s.parentDone
    ensures Unaided(s, schedule) && Exec(s, schedule).control.done
    ensures |schedule| <= 2 * Measure(s)
    decreases Measure(s)
  {
    if s.control.done {
      return [];
    }
    var d := Lull(s);
    var a := NextMove(s);
    var t := TickThenMove(s, d, a);
    var rest := DoneAnyway(t);
    schedule := [Tick(d), a] + rest;
    AfterLull(s, d, a, rest);
  }

  /**
    The same for every run: when nobody outside bodies and hooks can move any
    more and the current timer has expired, the pool is done. By StepsBounded no
    run can put that off by more than a bounded number of steps.
  */
  lemma RestIsDoneAnyway(o: Options, now: int, schedule: seq<Action>)
    requires var s := Run(o, now, schedule);
             s.started && s.parentDone && BlockedInside(s) && s.now >= s.control.timer
    ensures Run(o, now, schedule).control.done
  {
    RunInv(o, now, schedule);
    var s := Run(o, now, schedule);
    RestFreesLock(s);
    ExpiredRest(s);
  }

  lemma ExpiredRest(s: State)
    requires Shape(s) && PhaseInv(s) && s.lock.Free? && BlockedInside(s)
    requires s.started && s.parentDone && s.now >= s.control.timer
    ensures s.control.done
  {
    assert !Enabled(s, CoordinatorStep(OnTimer));
  }

  /**
    The timed bound is met, not only not missed: every punctual run that has seen
    Start and the cancellation can be continued, without the return of any body
    or hook, to one that is done within the drain timeout and the unwind window.
  */
  lemma DoneInTime(o: Options, now: int, before: seq<Action>)
    requires Punctual(Init(Clamp(o), now), before)
    requires var s := Run(o, now, before); s.started && s.parentDone
    ensures exists after :: MeetsBound(o, now, before, after)
  {
    RunInv(o, now, before);
    var after := DoneAnyway(Run(o, now, before));
    ExecConcat(Init(Clamp(o), now), before, after);
    PunctualConcat(Init(Clamp(o), now), before, after);
    ShutdownBound(o, now, before + after);
    assert MeetsBound(o, now, before, after);
  }

  ghost predicate MeetsBound(o: Options, now: int, before: seq<Action>, after: seq<Action>) {
    var t := Run(o, now, before + after);
    && Unaided(Run(o, now, before), after) && Punctual(Init(Clamp(o), now), before + after)
    && t.control.done && t.control.doneAt <= t.control.observedAt + ShutdownTime(t.options)
  }

  // ---------- what is stuck is lost, and nothing else is buried ----------

  predicate Inside(p: Actor) {
    p.Running? || p.Hooked?
  }

  lemma InsideStays(s: State, a: Action, i: nat)
    requires Shape(s) && PhaseInv(s) && Enabled(s, a) && Alone(a) && i < |s.actors| && Inside(s.actors[i])
    ensures i < |Step(s, a).actors| && Step(s, a).actors[i] == s.actors[i]
  {
    if a.CoordinatorStep? {
      assert s.control.coordinator.Spawning? ==> s.actors[Drainer(s)].Unstarted?;
    }
  }

  lemma {:induction false} StaysInside(s: State, schedule: seq<Action>, i: nat)
    requires Inv(s) && i < |s.actors| && Inside(s.actors[i])
    requires forall a | a in schedule :: Alone(a)
    ensures i < |Exec(s, schedule).actors| && Exec(s, schedule).actors[i] == s.actors[i]
    decreases |schedule|
  {
    if schedule != [] {
      if Enabled(s, schedule[0]) {
        StepInv(s, schedule[0]);
        InsideStays(s, schedule[0], i);
      }
      StaysInside(Advance(s, schedule[0]), schedule[1..], i);
    }
  }

  lemma StepKeepsCalls(s: State, a: Action)
    requires Shape(s) && Alone(a)
    ensures |Advance(s, a).calls| == |s.calls|
  {
  }

  lemma {:induction false} NobodyOffers(s: State, schedule: seq<Action>)
    requires Shape(s) && forall a | a in schedule :: Alone(a)
    ensures |Exec(s, schedule).calls| == |s.calls|
    decreases |schedule|
  {
    if schedule != [] {
      StepKeepsCalls(s, schedule[0]);
      NobodyOffers(Advance(s, schedule[0]), schedule[1..]);
    }
  }

  lemma HeldIsUnsettled(s: State, i: nat)
    requires Shape(s) && PlaceInv(s) && HandInv(s) && i < |s.actors| && s.actors[i].HasJob()
    ensures s.actors[i].job in s.history.sent && s.actors[i].job !in s.history.settledOrder
  {
    assert s.history.jobs[s.actors[i].job].place == InHand(i);
  }

  /** Whatever is still in somebody's hand when the pool is done has been counted as lost. */
  lemma HeldIsLost(s: State, i: nat)
    requires Inv(s) && s.control.done && i < |s.actors| && s.actors[i].HasJob()
    ensures s.actors[i].job in s.control.lost && s.actors[i].job !in s.history.settledOrder
    ensures WaitOnDone(s).DrainIncomplete?
  {
    var j := s.actors[i].job;
    HeldIsUnsettled(s, i);
    UnsettledCount(s);
    assert j in Sums.Elements(s.history.sent) && j !in s.control.settledThen;
    DoneAccounts(s);
  }

  /** One stuck job: Wait still comes back through `done`, and reports it. */
  lemma StuckIsReported(o: Options, now: int, before: seq<Action>, i: nat)
    requires var s := Run(o, now, before);
             s.started && s.parentDone && i < |s.actors| && Inside(s.actors[i])
    ensures var s := Run(o, now, before);
            exists after ::
              && Unaided(s, after)
              && var t := Exec(s, after);
                 && t.control.done && WaitOnDone(t).DrainIncomplete?
                 && s.actors[i].job in t.control.lost && s.actors[i].job !in t.history.settledOrder
  {
    RunInv(o, now, before);
    var s := Run(o, now, before);
    var after := DoneAnyway(s);
    StaysInside(s, after, i);
    ExecInv(s, after);
    HeldIsLost(Exec(s, after), i);
  }

  lemma RestIsInside(s: State)
    requires Shape(s) && PhaseInv(s) && s.lock.Free? && !InAttempts(s.actors[Drainer(s)])
    requires BlockedInside(s) && DrainerSpawned(s.control) && !s.actors[Drainer(s)].Hooked?
    ensures s.queue == []
    ensures forall i | 0 <= i < |s.actors| :: s.actors[i].Exited? || Inside(s.actors[i])
  {
    forall i | 0 <= i < |s.actors| ensures s.actors[i].Exited? || Inside(s.actors[i]) {
      assert !Enabled(s, ActorStep(i));
    }
    assert s.actors[Drainer(s)].Exited?;
  }

  /**
    A stuck job does not bury the rest: once the drainer runs, and unless it is
    itself stuck in the hook, nothing stays queued; when nobody can move, every
    accepted job is settled except those inside a body or hook.
  */
  lemma BacklogIsCleared(o: Options, now: int, schedule: seq<Action>)
    requires var s := Run(o, now, schedule);
             BlockedInside(s) && DrainerSpawned(s.control) && !s.actors[Drainer(s)].Hooked?
    ensures var s := Run(o, now, schedule);
            && s.queue == []
            && (forall i | 0 <= i < |s.actors| :: s.actors[i].Exited? || Inside(s.actors[i]))
            && (forall j | j in s.history.sent && j !in s.history.settledOrder ::
                  exists i: nat :: Holds(s, i, j) && Inside(s.actors[i]))
  {
    RunInv(o, now, schedule);
    var s := Run(o, now, schedule);
    RestFreesLock(s);
    RestIsInside(s);
    forall j | j in s.history.sent && j !in s.history.settledOrder
      ensures exists i: nat :: Holds(s, i, j) && Inside(s.actors[i])
    {
      assert Holds(s, s.history.jobs[j].place.actor, j);
    }
  }

  // ---------- the two ledgers ----------

  lemma NothingLost(s: State)
    requires Inv(s) && s.control.done && s.metrics.abandoned == 0
    ensures s.settled == s.accepted
  {
    DoneIsAccountedFor(s);
  }

  /**
    After `done`, the ledgers add up for good exactly when nothing was recorded as
    abandoned, that is when Wait returns nil. Otherwise a lost job may settle.
  */
  lemma LedgersBalancedForGood(o: Options, now: int, before: seq<Action>)
    requires Run(o, now, before).control.done
    ensures var s := Run(o, now, before);
            && ((forall after :: Balanced(Exec(s, after))) <==> s.metrics.abandoned == 0)
            && (s.metrics.abandoned == 0 <==> WaitOnDone(s) == Drained)
  {
    RunInv(o, now, before);
    var s := Run(o, now, before);
    DoneAccounts(s);
    if s.metrics.abandoned == 0 {
      forall after ensures Balanced(Exec(s, after)) {
        AccountingOnce(s, after);
        ExecInv(s, after);
        NothingLost(Exec(s, after));
      }
    } else {
      var after := SettlesAfterAll(o, now, before);
      assert !Balanced(Exec(s, after));
    }
  }

  predicate Balanced(s: State) {
    s.settled + s.metrics.abandoned == s.accepted
  }

  /** If bodies and hooks return after all, every lost job settles. */
  lemma SettlesAfterAll(o: Options, now: int, before: seq<Action>) returns (after: seq<Action>)
    requires Run(o, now, before).control.done
    ensures var s, t := Run(o, now, before), Exec(Run(o, now, before), after);
            t.control.done && t.settled == t.accepted == s.accepted && t.metrics.abandoned == s.metrics.abandoned
  {
    RunInv(o, now, before);
    var s := Run(o, now, before);
    CompletionReachable(o, now, before);
    after :| Busily(s, after) && Complete(Exec(s, after));
    AccountingOnce(s, after);
    AcceptanceFrozen(s, after);
  }
}
