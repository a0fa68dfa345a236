/**
  Progress of the pool: every step of its own brings it closer to the end, it
  never gets stuck except inside job bodies and dead-letter hooks, and if those
  return every run settles everything.
*/
module PoolProgress {
  import Sums
  import opened PoolModel
  import opened PoolInvariant
  import PoolSafety

  // ---------- the measure ----------

  /** Steps one received job can still cost: its attempts, its dead-letter record, and jobDequeued. */
  function JobCost(maxAttempts: int): nat {
    if maxAttempts < 0 then 11 else 3 * maxAttempts + 11
  }

  function ActorRank(maxAttempts: int, p: Actor): nat {
    match p
    case Unstarted => 1
    case Receiving => 1
    case Received(_) => JobCost(maxAttempts)
    case Locked(_) => JobCost(maxAttempts) - 1
    case Lowered(_) => JobCost(maxAttempts) - 2
    case Checking(_) => JobCost(maxAttempts) - 3
    case Looping(_, k, _) => 7 + AttemptsLeft(maxAttempts, k)
    case Running(_, k) => 6 + AttemptsLeft(maxAttempts, k)
    case Succeeded(_) => 3
    case Processed(_) => 2
    case Failed(_, k, _) => 5 + AttemptsLeft(maxAttempts, k)
    case Condemned(_, _) => 6
    case FailureCounted(_, _) => 5
    case DeathCounted(_, _) => 4
    case Hooked(_, _) => 3
    case Settling(_) => 2
    case Exited => 0
  }

  function AttemptsLeft(maxAttempts: int, k: nat): nat {
    if k <= maxAttempts then 3 * (maxAttempts + 1 - k) else 0
  }

  function CallRank(maxAttempts: int, c: Call): nat {
    match c
    case Waiting => JobCost(maxAttempts) + 6
    case Inspecting => JobCost(maxAttempts) + 5
    case Sending => JobCost(maxAttempts) + 4
    case Sent => 3
    case Counted => 2
    case Returning(_) => 1
    case Returned(_) => 0
  }

  function RankOfActor(maxAttempts: int): Actor -> nat {
    p => ActorRank(maxAttempts, p)
  }

  function RankOfCall(maxAttempts: int): Call -> nat {
    c => CallRank(maxAttempts, c)
  }

  function StagesLeft(stage: nat): nat {
    if stage <= 18 then 18 - stage else 0
  }

  ghost function Measure(s: State): nat {
    |s.queue| * JobCost(s.options.maxAttempts)
    + Sums.Total(RankOfActor(s.options.maxAttempts), s.actors)
    + Sums.Total(RankOfCall(s.options.maxAttempts), s.calls)
    + StagesLeft(s.control.coordinator.Stage())
    + (if s.workersDone then 0 else 1)
    + (if s.drained then 0 else 1)
  }

  // ---------- every internal step decreases it ----------

  lemma EffectDecreases(o: Options, drainer: bool, cancelled: bool, p: Actor, r: Record)
    requires ValidOptions(o) && Busy(p) && HandOk(o, cancelled, p, r)
    ensures ActorRank(o.maxAttempts, EffectOfActor(o, drainer, cancelled, p, r).next) < ActorRank(o.maxAttempts, p)
  {
  }

  /** A step that only moves actor `i`, from one rank to a lower one. */
  lemma MoveDecreases(s: State, i: nat, e: Effect)
    requires Shape(s) && i < |s.actors| && s.actors[i].HasJob()
    requires ActorRank(s.options.maxAttempts, e.next) < ActorRank(s.options.maxAttempts, s.actors[i])
    ensures Measure(ApplyEffect(s, i, e)) < Measure(s)
  {
    Sums.TotalUpdate(RankOfActor(s.options.maxAttempts), s.actors, i, e.next);
  }

  lemma JobStepDecreases(s: State, i: nat, a: Action)
    requires Shape(s) && HandInv(s) && Enabled(s, a) && MovesJob(s, i, a)
    ensures Measure(ApplyEffect(s, i, JobEffect(s, i, a))) < Measure(s)
  {
    var p := s.actors[i];
    if a.ActorStep? {
      EffectDecreases(s.options, i == Drainer(s), s.control.cancelled, p, s.history.jobs[p.job]);
    }
    MoveDecreases(s, i, JobEffect(s, i, a));
  }

  lemma ReceiveDecreases(s: State, i: nat)
    requires Shape(s) && i < |s.actors| && s.actors[i].Receiving?
    ensures Measure(StepReceive(s, i)) < Measure(s)
  {
    var m := s.options.maxAttempts;
    var p := if s.queue == [] then Exited else Received(s.queue[0]);
    assert StepReceive(s, i).actors == s.actors[i := p];
    Sums.TotalUpdate(RankOfActor(m), s.actors, i, p);
    if s.queue != [] {
      assert |s.queue| * JobCost(m) == |s.queue[1..]| * JobCost(m) + JobCost(m);
    }
  }

  lemma CallDecreases(s: State, j: JobId)
    requires Shape(s) && j < |s.calls| && CallEnabled(s, s.calls[j])
    requires s.calls[j].Sending? ==> !s.control.closed
    ensures Measure(StepCall(s, j)) < Measure(s)
  {
    var m := s.options.maxAttempts;
    var t := StepCall(s, j);
    Sums.TotalUpdate(RankOfCall(m), s.calls, j, t.calls[j]);
    if t.queue != s.queue {
      assert (|s.queue| + 1) * JobCost(m) == |s.queue| * JobCost(m) + JobCost(m);
    }
  }

  lemma CoordinatorDecreases(s: State, arm: Arm)
    requires Inv(s) && CoordinatorEnabled(s, arm)
    ensures Measure(StepCoordinator(s, arm)) < Measure(s)
  {
    ControlEffectOk(s, arm);
    Sums.TotalUpdate(RankOfActor(s.options.maxAttempts), s.actors, Drainer(s), Receiving);
  }

  lemma SignalDecreases(s: State, a: Action)
    requires Inv(s) && Enabled(s, a) && (a.SignalWorkersDone? || a.SignalDrained?)
    ensures Measure(Step(s, a)) < Measure(s)
  {
  }

  /** Every step the pool or a submitter takes lowers the measure. */
  lemma InternalStepDecreases(s: State, a: Action)
    requires Inv(s) && Enabled(s, a) && Internal(a)
    ensures Measure(Step(s, a)) < Measure(s)
  {
    match a
    case CallStep(j) => CallDecreases(s, j);
    case ActorStep(i) => if s.actors[i].Receiving? { ReceiveDecreases(s, i); } else { JobStepDecreases(s, i, a); }
    case BodyReturns(i, _) => JobStepDecreases(s, i, a);
    case HookReturns(i) => JobStepDecreases(s, i, a);
    case CoordinatorStep(arm) => CoordinatorDecreases(s, arm);
    case _ => SignalDecreases(s, a);
  }

  /** The cost of one more call of Submit. */
  function OfferCost(o: Options): nat {
    JobCost(o.maxAttempts) + 6
  }

  lemma ExternalStepCost(s: State, a: Action)
    requires Inv(s) && Enabled(s, a) && !Internal(a)
    ensures Measure(Step(s, a)) <= Measure(s) + if a.CallSubmit? then OfferCost(s.options) else 0
  {
    match a
    case CallSubmit => Sums.TotalAppend(RankOfCall(s.options.maxAttempts), s.calls, Waiting);
    case Start => StartIsFree(s);
    case _ =>
  }

  lemma StartIsFree(s: State)
    requires Shape(s) && PhaseInv(s)
    ensures Measure(StepStart(s)) <= Measure(s)
  {
    if !s.started {
      SameRanks(s.actors, StepStart(s).actors, s.options.maxAttempts);
    }
  }

  /** An actor that has not started ranks like one that waits for a job. */
  lemma {:induction false} SameRanks(before: seq<Actor>, after: seq<Actor>, m: int)
    requires |before| == |after|
    requires forall i | 0 <= i < |before| :: ActorRank(m, before[i]) == ActorRank(m, after[i])
    ensures Sums.Total(RankOfActor(m), before) == Sums.Total(RankOfActor(m), after)
    decreases |before|
  {
    if before != [] {
      SameRanks(before[1..], after[1..], m);
    }
  }

  // ---------- every run is short ----------

  /** Internal steps actually taken along a schedule. */
  ghost function Moves(s: State, schedule: seq<Action>): nat
    requires Shape(s)
    decreases |schedule|
  {
    if schedule == [] then 0
    else
      (if Enabled(s, schedule[0]) && Internal(schedule[0]) then 1 else 0)
      + Moves(Advance(s, schedule[0]), schedule[1..])
  }

  ghost function Offers(schedule: seq<Action>): nat {
    if schedule == [] then 0 else (if schedule[0].CallSubmit? then 1 else 0) + Offers(schedule[1..])
  }

  /**
    However the scheduler interleaves them, the pool and its submitters take at
    most a fixed number of steps, plus 3 * MaxAttempts + 17 for each offered job.
  */
  lemma {:induction false} StepsBounded(s: State, schedule: seq<Action>)
    requires Inv(s)
    ensures Shape(Exec(s, schedule)) && Exec(s, schedule).options == s.options
    ensures Moves(s, schedule) + Measure(Exec(s, schedule)) <= Measure(s) + OfferCost(s.options) * Offers(schedule)
    decreases |schedule|
  {
    if schedule != [] {
      StepBounded(s, schedule[0]);
      StepsBounded(Advance(s, schedule[0]), schedule[1..]);
      OfferFirst(OfferCost(s.options), schedule);
    }
  }

  /** One scheduling decision pays for itself. */
  lemma StepBounded(s: State, a: Action)
    requires Inv(s)
    ensures var t := Advance(s, a);
            && Inv(t) && t.options == s.options
            && (if Enabled(s, a) && Internal(a) then 1 else 0) + Measure(t)
               <= Measure(s) + if a.CallSubmit? then OfferCost(s.options) else 0
  {
    AdvanceOptions(s, a);
    if Enabled(s, a) {
      StepInv(s, a);
      if Internal(a) { InternalStepDecreases(s, a); } else { ExternalStepCost(s, a); }
    }
  }

  lemma OfferFirst(cost: nat, schedule: seq<Action>)
    requires schedule != []
    ensures cost * Offers(schedule) == (if schedule[0].CallSubmit? then cost else 0) + cost * Offers(schedule[1..])
  {
    var first: nat := if schedule[0].CallSubmit? then 1 else 0;
    Distribute(cost, first, Offers(schedule[1..]));
    assert cost * first == if schedule[0].CallSubmit? then cost else 0;
  }

  lemma Distribute(c: nat, x: nat, y: nat)
    ensures c * (x + y) == c * x + c * y
  {
  }

  // ---------- no deadlock ----------

  /** Nobody can move, even if every job body and hook is about to return. */
  ghost predicate Quiescent(s: State) {
    forall a | Internal(a) :: !Enabled(s, a)
  }

  /** Nobody can move except by the return of a job body or a hook. */
  ghost predicate BlockedInside(s: State) {
    forall a | Internal(a) && !a.BodyReturns? && !a.HookReturns? :: !Enabled(s, a)
  }

  ghost predicate Complete(s: State) {
    && s.control.done && s.workersDone && s.queue == [] && s.lock.Free?
    && (forall j | 0 <= j < |s.calls| :: s.calls[j].Returned?)
    && PoolSafety.FullyAccounted(s)
  }

  /** Whoever holds the lock can move. */
  lemma HolderMoves(s: State) returns (a: Action)
    requires LockInv(s) && !s.lock.Free?
    ensures Internal(a) && !a.BodyReturns? && !a.HookReturns? && Enabled(s, a)
  {
    match s.lock
    case HeldByCall(j) => return CallStep(j);
    case HeldByActor(i) => return ActorStep(i);
    case HeldByCoordinator => return CoordinatorStep(OnChannel);
  }

  lemma RestFreesLock(s: State)
    requires Inv(s) && BlockedInside(s)
    ensures s.lock.Free?
    ensures forall j | 0 <= j < |s.calls| :: s.calls[j].Returned?
  {
    if !s.lock.Free? {
      var a := HolderMoves(s);
      assert false;
    }
    forall j | 0 <= j < |s.calls| ensures s.calls[j].Returned? {
      assert !Enabled(s, CallStep(j));
    }
  }

  /** At rest an actor that is not inside a job body or hook is gone, or was never started. */
  lemma RestEmptiesHands(s: State)
    requires Inv(s) && BlockedInside(s) && s.control.closed
    requires forall i | 0 <= i < |s.actors| :: !s.actors[i].Running? && !s.actors[i].Hooked?
    ensures s.workersDone
    ensures forall i | 0 <= i < |s.actors| :: s.actors[i].Exited? || (i == Drainer(s) && s.actors[i].Unstarted?)
  {
    RestFreesLock(s);
    forall i | 0 <= i < |s.actors|
      ensures s.actors[i].Exited? || (i == Drainer(s) && s.actors[i].Unstarted?)
    {
      assert !Enabled(s, ActorStep(i));
    }
    assert !Enabled(s, SignalWorkersDone);
  }

  /** Once Start was called and the parent cancelled, the coordinator closes the channel. */
  lemma RestIsClosed(s: State)
    requires Inv(s) && BlockedInside(s) && s.started && s.parentDone
    ensures s.control.closed
  {
    RestFreesLock(s);
    assert !Enabled(s, CoordinatorStep(OnChannel));
  }

  lemma RestIsDone(s: State)
    requires Shape(s) && LockInv(s) && PhaseInv(s)
    requires BlockedInside(s) && s.lock.Free? && s.control.closed && s.workersDone
    requires s.actors[Drainer(s)].Exited? || s.actors[Drainer(s)].Unstarted?
    ensures s.control.done
  {
    assert !Enabled(s, CoordinatorStep(OnChannel));
    assert !Enabled(s, SignalDrained);
  }

  /**
    No deadlock: after Start and the cancellation, a reachable state in which
    nobody can move is the completed one, or somebody is inside a job body or hook.
  */
  lemma NoDeadlock(o: Options, now: int, schedule: seq<Action>)
    requires var s := Run(o, now, schedule); s.started && s.parentDone && BlockedInside(s)
    ensures var s := Run(o, now, schedule);
            Complete(s) || exists i: nat | i < |s.actors| :: s.actors[i].Running? || s.actors[i].Hooked?
  {
    RunInv(o, now, schedule);
    var s := Run(o, now, schedule);
    if forall i: nat | i < |s.actors| :: !s.actors[i].Running? && !s.actors[i].Hooked? {
      RestCompletes(s);
    }
  }

  lemma RestCompletes(s: State)
    requires Inv(s) && BlockedInside(s) && s.started && s.parentDone
    requires forall i | 0 <= i < |s.actors| :: !s.actors[i].Running? && !s.actors[i].Hooked?
    ensures Complete(s)
  {
    RestFreesLock(s);
    RestIsClosed(s);
    RestEmptiesHands(s);
    RestIsDone(s);
    NothingHeld(s);
    UnsettledCount(s);
    NothingPending(s);
    PoolSafety.AllSettled(s);
  }

  lemma QuiescentOutside(s: State)
    requires Quiescent(s)
    ensures BlockedInside(s)
    ensures forall i | 0 <= i < |s.actors| :: !s.actors[i].Running? && !s.actors[i].Hooked?
  {
    forall i | 0 <= i < |s.actors| ensures !s.actors[i].Running? && !s.actors[i].Hooked? {
      assert !Enabled(s, BodyReturns(i, Succeeds));
      assert !Enabled(s, HookReturns(i));
    }
  }

  lemma QuiescentCompletes(s: State)
    requires Inv(s) && Quiescent(s) && s.started && s.parentDone
    ensures Complete(s)
  {
    QuiescentOutside(s);
    RestCompletes(s);
  }

  /** The schedules that take a step of the pool at every entry. */
  ghost predicate Busily(s: State, schedule: seq<Action>)
    requires Shape(s)
    decreases |schedule|
  {
    schedule == [] ||
    (Internal(schedule[0]) && Enabled(s, schedule[0]) && Busily(Advance(s, schedule[0]), schedule[1..]))
  }

  /** From any state, steps of the pool's own lead to a state where nobody can move. */
  lemma {:induction false} MaximalRun(s: State) returns (schedule: seq<Action>)
    requires Inv(s)
    ensures Busily(s, schedule) && Quiescent(Exec(s, schedule))
    decreases Measure(s)
  {
    if Quiescent(s) {
      return [];
    }
    var a :| Internal(a) && Enabled(s, a);
    StepInv(s, a);
    InternalStepDecreases(s, a);
    var rest := MaximalRun(Step(s, a));
    schedule := [a] + rest;
    Prepend(s, a, rest);
  }

  lemma Prepend(s: State, a: Action, rest: seq<Action>)
    requires Shape(s) && Enabled(s, a) && Shape(Step(s, a))
    ensures Exec(s, [a] + rest) == Exec(Step(s, a), rest)
    ensures Internal(a) && Busily(Step(s, a), rest) ==> Busily(s, [a] + rest)
  {
    assert ([a] + rest)[1..] == rest;
  }

  /**
    If job bodies and hooks return, every run settles everything: after Start and
    the cancellation the pool's own steps, in whatever order they are taken, are at
    most Measure many, and end in the complete state when nobody can move.
  */
  lemma EveryRunCompletes(o: Options, now: int, before: seq<Action>, schedule: seq<Action>)
    requires var s := Run(o, now, before); s.started && s.parentDone
    requires Busily(Run(o, now, before), schedule)
    ensures var s := Run(o, now, before); Inv(s) && |schedule| <= Measure(s)
    ensures var t := Exec(Run(o, now, before), schedule);
            Quiescent(t) ==> Complete(t)
  {
    RunInv(o, now, before);
    BusyRun(Run(o, now, before), schedule);
    var t := Exec(Run(o, now, before), schedule);
    if Quiescent(t) {
      QuiescentCompletes(t);
    }
  }

  lemma {:induction false} BusyRun(s: State, schedule: seq<Action>)
    requires Inv(s) && s.started && Busily(s, schedule)
    ensures var t := Exec(s, schedule);
            Inv(t) && t.started && (s.parentDone ==> t.parentDone) && |schedule| + Measure(t) <= Measure(s)
    decreases |schedule|
  {
    if schedule != [] {
      StepInv(s, schedule[0]);
      InternalStepDecreases(s, schedule[0]);
      StaysStarted(s, schedule[0]);
      AdvanceClock(s, schedule[0]);
      BusyRun(Advance(s, schedule[0]), schedule[1..]);
    }
  }

  /** And there is such a run from every reachable state. */
  lemma CompletionReachable(o: Options, now: int, before: seq<Action>)
    requires var s := Run(o, now, before); s.started && s.parentDone
    ensures exists schedule :: Busily(Run(o, now, before), schedule) && Complete(Exec(Run(o, now, before), schedule))
  {
    RunInv(o, now, before);
    var schedule := MaximalRun(Run(o, now, before));
    EveryRunCompletes(o, now, before, schedule);
  }

  // ---------- without a shutdown ----------

  /** At rest with nobody inside a body or hook, no actor of a started pool holds a job and nothing is queued. */
  lemma RestHoldsNothing(s: State)
    requires Shape(s) && PhaseInv(s) && s.started && BlockedInside(s) && s.lock.Free?
    requires forall i | 0 <= i < |s.actors| :: !s.actors[i].Running? && !s.actors[i].Hooked?
    ensures s.queue == [] && forall i | 0 <= i < |s.actors| :: !s.actors[i].HasJob()
  {
    forall i | 0 <= i < |s.actors|
      ensures !s.actors[i].HasJob() && (s.actors[i].Receiving? || s.actors[i].Exited? ==> s.queue == [])
    {
      assert !Enabled(s, ActorStep(i));
    }
    assert !s.actors[0].Unstarted?;
  }

  lemma QuiescentSettles(s: State)
    requires Inv(s) && s.started && Quiescent(s)
    ensures Settled(s)
  {
    QuiescentOutside(s);
    RestFreesLock(s);
    RestHoldsNothing(s);
    Sums.TotalZero(Holding, s.actors);
    UnsettledCount(s);
    PoolSafety.AllSettled(s);
  }

  /** Everything accepted is settled and every call of Submit has returned. */
  ghost predicate Settled(s: State) {
    PoolSafety.FullyAccounted(s) && forall j | 0 <= j < |s.calls| :: s.calls[j].Returned?
  }

  /**
    A started pool settles what it accepts, whether it is shutting down or not:
    if job bodies and hooks return, its own steps from any reachable state are at
    most Measure many, in whatever order, and when nobody can move everything is
    settled.
  */
  lemma EveryRunSettles(o: Options, now: int, before: seq<Action>, schedule: seq<Action>)
    requires Run(o, now, before).started && Busily(Run(o, now, before), schedule)
    ensures var s := Run(o, now, before); Inv(s) && |schedule| <= Measure(s)
    ensures var t := Exec(Run(o, now, before), schedule);
            Quiescent(t) ==> Settled(t)
  {
    RunInv(o, now, before);
    BusyRun(Run(o, now, before), schedule);
    var t := Exec(Run(o, now, before), schedule);
    if Quiescent(t) {
      QuiescentSettles(t);
    }
  }
}
