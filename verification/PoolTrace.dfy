/**
  What can be seen of a run from outside the pool: how each call of a job body
  ended, when attempts began, and when the shutdown was seen and was over. All
  of it is read off the schedule and the states it leads to, and the records
  and dates of the pool are proved to agree with it.
*/
module PoolTrace {
  import opened Basics
  import opened PoolModel
  import opened PoolInvariant
  import opened PoolSafety

  // ---------- outcomes of a job's body ----------

  /** `a` lets a body of job `j` return in state `s`. */
  predicate Ends(s: State, a: Action, j: JobId) {
    a.BodyReturns? && a.actor < |s.actors| && s.actors[a.actor].Running? && s.actors[a.actor].job == j
  }

  /** How the bodies of job `j` ended along a schedule, in order. */
  function Outcomes(s: State, schedule: seq<Action>, j: JobId): seq<Outcome>
    requires Shape(s)
    decreases |schedule|
  {
    if schedule == [] then []
    else
      (if Ends(s, schedule[0], j) then [schedule[0].outcome] else [])
      + Outcomes(Advance(s, schedule[0]), schedule[1..], j)
  }

  /** No body returned nil. */
  predicate AllFailed(outcomes: seq<Outcome>) {
    forall i | 0 <= i < |outcomes| :: !outcomes[i].Succeeds?
  }

  /** The last body returned nil, and no other. */
  predicate LastSucceeded(outcomes: seq<Outcome>) {
    && outcomes != [] && outcomes[|outcomes| - 1].Succeeds?
    && forall i | 0 <= i < |outcomes| - 1 :: !outcomes[i].Succeeds?
  }

  /** The error of the last body; none if no body has returned, or that one returned nil. */
  function LastError(outcomes: seq<Outcome>): Option<Error> {
    if outcomes == [] then None
    else
      match outcomes[|outcomes| - 1]
      case Succeeds => None
      case Fails(code) => Some(JobError(code))
      case Panics(code) => Some(JobPanic(code))
  }

  /** What a job is dead-lettered with: the error of its last attempt, or the cancellation if it had none. */
  function CauseOf(outcomes: seq<Outcome>): Option<Error> {
    if outcomes == [] then Some(ContextCanceled) else LastError(outcomes)
  }

  // ---------- where a job stands goes with its outcomes ----------

  /** A job in the hand of an actor at `p`. */
  predicate HandTrace(p: Actor, r: Record, outcomes: seq<Outcome>)
    requires p.HasJob()
  {
    match p
    case Received(_) => outcomes == []
    case Locked(_) => outcomes == []
    case Lowered(_) => outcomes == []
    case Checking(_) => outcomes == []
    case Looping(_, _, last) => AllFailed(outcomes) && |outcomes| == r.failures && last == LastError(outcomes)
    case Running(_, _) => AllFailed(outcomes) && |outcomes| == r.failures
    case Succeeded(_) => LastSucceeded(outcomes) && |outcomes| == r.failures + 1
    case Processed(_) => LastSucceeded(outcomes) && |outcomes| == r.failures + 1
    case Failed(_, _, error) =>
      AllFailed(outcomes) && |outcomes| == r.failures && LastError(outcomes) == Some(error)
    case Condemned(_, cause) => AllFailed(outcomes) && |outcomes| == r.failures && cause == CauseOf(outcomes)
    case FailureCounted(_, cause) => AllFailed(outcomes) && |outcomes| == r.failures && cause == CauseOf(outcomes)
    case DeathCounted(_, cause) => AllFailed(outcomes) && |outcomes| == r.failures && cause == CauseOf(outcomes)
    case Hooked(_, cause) => AllFailed(outcomes) && |outcomes| == r.failures && r.hooks == [CauseOf(outcomes)]
    case Settling(_) =>
      AllFailed(outcomes) && |outcomes| == r.failures && (r.hooks != [] ==> r.hooks == [CauseOf(outcomes)])
  }

  /** A job in nobody's hand. */
  predicate RestTrace(r: Record, outcomes: seq<Outcome>) {
    if r.place.Settled? then
      && (r.processed == 1 ==> LastSucceeded(outcomes) && |outcomes| == r.failures + 1 && r.hooks == [])
      && (r.failed == 1 ==>
            AllFailed(outcomes) && |outcomes| == r.failures && (r.hooks != [] ==> r.hooks == [CauseOf(outcomes)]))
    else outcomes == []
  }

  ghost predicate JobTrace(s: State, j: JobId, outcomes: seq<Outcome>)
    requires Shape(s)
  {
    if j >= |s.history.jobs| then outcomes == []
    else
      var r := s.history.jobs[j];
      match r.place
      case InHand(i) => i < |s.actors| && s.actors[i].HasJob() && HandTrace(s.actors[i], r, outcomes)
      case _ => RestTrace(r, outcomes)
  }

  lemma EffectTrace(o: Options, drainer: bool, cancelled: bool, p: Actor, r: Record, outcomes: seq<Outcome>)
    requires ValidOptions(o) && Busy(p) && HandOk(o, cancelled, p, r) && HandTrace(p, r, outcomes)
    requires drainer ==> cancelled
    ensures var e := EffectOfActor(o, drainer, cancelled, p, r);
            if e.next.HasJob() then HandTrace(e.next, e.record, outcomes) else RestTrace(e.record, outcomes)
  {
  }

  lemma ReturnTrace(j: JobId, k: nat, outcome: Outcome, r: Record, outcomes: seq<Outcome>)
    requires HandTrace(Running(j, k), r, outcomes)
    ensures var e := EffectOfReturn(j, k, outcome, r);
            e.next.HasJob() && HandTrace(e.next, e.record, outcomes + [outcome])
  {
  }

  /** The outcomes that one action adds. */
  function Added(s: State, a: Action, j: JobId): seq<Outcome> {
    if Ends(s, a, j) then [a.outcome] else []
  }

  /** A step of the actor that holds the job. */
  lemma HolderTrace(s: State, i: nat, a: Action, j: JobId, outcomes: seq<Outcome>)
    requires Shape(s) && HandInv(s) && Enabled(s, a) && MovesJob(s, i, a) && s.actors[i].job == j
    requires i == Drainer(s) ==> s.control.cancelled
    requires JobTrace(s, j, outcomes)
    ensures var e := JobEffect(s, i, a);
            if e.next.HasJob() then HandTrace(e.next, e.record, outcomes + Added(s, a, j))
            else RestTrace(e.record, outcomes + Added(s, a, j))
  {
    var p, r := s.actors[i], s.history.jobs[j];
    assert HandOk(s.options, s.control.cancelled, p, r);
    assert outcomes + [] == outcomes;
    match a
    case ActorStep(_) => EffectTrace(s.options, i == Drainer(s), s.control.cancelled, p, r, outcomes);
    case BodyReturns(_, outcome) => ReturnTrace(j, p.attempt, outcome, r, outcomes);
    case HookReturns(_) =>
  }

  /** A job whose record and holder stay as they are. */
  lemma OtherTrace(s: State, t: State, j: JobId, outcomes: seq<Outcome>)
    requires Shape(s) && Shape(t) && JobTrace(s, j, outcomes)
    requires |t.history.jobs| >= |s.history.jobs|
    requires j < |s.history.jobs| ==> t.history.jobs[j] == s.history.jobs[j]
    requires j < |s.history.jobs| && s.history.jobs[j].place.InHand? ==>
               var i := s.history.jobs[j].place.actor; i < |t.actors| && t.actors[i] == s.actors[i]
    requires |s.history.jobs| <= j < |t.history.jobs| ==> t.history.jobs[j] == NEW_RECORD
    ensures JobTrace(t, j, outcomes)
  {
  }

  lemma JobStepTrace(s: State, i: nat, a: Action, j: JobId, outcomes: seq<Outcome>)
    requires Inv(s) && Enabled(s, a) && MovesJob(s, i, a) && JobTrace(s, j, outcomes)
    ensures Shape(ApplyEffect(s, i, JobEffect(s, i, a)))
    ensures JobTrace(ApplyEffect(s, i, JobEffect(s, i, a)), j, outcomes + Added(s, a, j))
  {
    var e := JobEffect(s, i, a);
    JobEffectShape(s, i, a);
    var t := ApplyEffect(s, i, e);
    if s.actors[i].job == j {
      JobEffectOk(s, i, a);
      HolderTrace(s, i, a, j, outcomes);
    } else {
      assert outcomes + [] == outcomes;
      OtherTrace(s, t, j, outcomes);
    }
  }

  lemma ReceiveTrace(s: State, i: nat, j: JobId, outcomes: seq<Outcome>)
    requires Shape(s) && PlaceInv(s) && HandInv(s) && JobTrace(s, j, outcomes)
    requires i < |s.actors| && s.actors[i].Receiving? && Shape(StepReceive(s, i))
    ensures JobTrace(StepReceive(s, i), j, outcomes)
  {
    if s.queue != [] && s.queue[0] == j {
      assert s.history.jobs[j].place.Queued?;
    } else {
      OtherTrace(s, StepReceive(s, i), j, outcomes);
    }
  }

  lemma ActorTrace(s: State, i: nat, j: JobId, outcomes: seq<Outcome>)
    requires Inv(s) && Enabled(s, ActorStep(i)) && JobTrace(s, j, outcomes)
    ensures Shape(Step(s, ActorStep(i))) && JobTrace(Step(s, ActorStep(i)), j, outcomes)
  {
    if s.actors[i].Receiving? {
      ReceiveShape(s, i);
      ReceiveTrace(s, i, j, outcomes);
    } else {
      assert outcomes + [] == outcomes;
      JobStepTrace(s, i, ActorStep(i), j, outcomes);
    }
  }

  lemma CallTrace(s: State, k: JobId, j: JobId, outcomes: seq<Outcome>)
    requires Shape(s) && PlaceInv(s) && JobTrace(s, j, outcomes)
    requires k < |s.calls| && CallEnabled(s, s.calls[k]) && Shape(StepCall(s, k))
    ensures JobTrace(StepCall(s, k), j, outcomes)
  {
    if k != j {
      OtherTrace(s, StepCall(s, k), j, outcomes);
    }
  }

  /** The actions that leave every record, and every actor with a job, as they are. */
  lemma CoordinatorTrace(s: State, arm: Arm, j: JobId, outcomes: seq<Outcome>)
    requires Shape(s) && PhaseInv(s) && CoordinatorEnabled(s, arm) && JobTrace(s, j, outcomes)
    ensures Shape(StepCoordinator(s, arm)) && JobTrace(StepCoordinator(s, arm), j, outcomes)
  {
    CoordinatorShape(s, arm);
    OtherTrace(s, StepCoordinator(s, arm), j, outcomes);
  }

  lemma StartTrace(s: State, j: JobId, outcomes: seq<Outcome>)
    requires Shape(s) && PhaseInv(s) && JobTrace(s, j, outcomes)
    ensures Shape(StepStart(s)) && JobTrace(StepStart(s), j, outcomes)
  {
  }

  lemma OtherActionTrace(s: State, a: Action, j: JobId, outcomes: seq<Outcome>)
    requires Shape(s) && JobTrace(s, j, outcomes) && Enabled(s, a)
    requires a.CallSubmit? || a.CancelParent? || a.Tick? || a.SignalWorkersDone? || a.SignalDrained?
    ensures Shape(Step(s, a)) && JobTrace(Step(s, a), j, outcomes)
  {
    OtherTrace(s, Step(s, a), j, outcomes);
  }

  /** An action of an actor, or the return of a body or hook. */
  predicate ActorMoves(a: Action) {
    a.ActorStep? || a.BodyReturns? || a.HookReturns?
  }

  lemma ActorActionTrace(s: State, a: Action, j: JobId, outcomes: seq<Outcome>)
    requires Inv(s) && Enabled(s, a) && JobTrace(s, j, outcomes) && ActorMoves(a)
    ensures Shape(Step(s, a)) && JobTrace(Step(s, a), j, outcomes + Added(s, a, j))
  {
    if a.ActorStep? {
      assert outcomes + [] == outcomes;
      ActorTrace(s, a.actor, j, outcomes);
    } else {
      JobStepTrace(s, a.actor, a, j, outcomes);
    }
  }

  lemma StepTrace(s: State, a: Action, j: JobId, outcomes: seq<Outcome>)
    requires Inv(s) && Enabled(s, a) && JobTrace(s, j, outcomes) && !ActorMoves(a)
    ensures Shape(Step(s, a)) && JobTrace(Step(s, a), j, outcomes)
  {
    StepShape(s, a);
    match a
    case CallStep(k) => CallTrace(s, k, j, outcomes);
    case CoordinatorStep(arm) => CoordinatorTrace(s, arm, j, outcomes);
    case Start => StartTrace(s, j, outcomes);
    case _ => OtherActionTrace(s, a, j, outcomes);
  }

  lemma AnyStepTrace(s: State, a: Action, j: JobId, outcomes: seq<Outcome>)
    requires Inv(s) && Enabled(s, a) && JobTrace(s, j, outcomes)
    ensures Shape(Step(s, a)) && JobTrace(Step(s, a), j, outcomes + Added(s, a, j))
  {
    if ActorMoves(a) {
      ActorActionTrace(s, a, j, outcomes);
    } else {
      StepTrace(s, a, j, outcomes);
      assert outcomes + [] == outcomes;
    }
  }

  lemma AdvanceTrace(s: State, a: Action, j: JobId, outcomes: seq<Outcome>)
    requires Inv(s) && JobTrace(s, j, outcomes)
    ensures Inv(Advance(s, a)) && JobTrace(Advance(s, a), j, outcomes + Added(s, a, j))
  {
    if Enabled(s, a) {
      StepInv(s, a);
      AnyStepTrace(s, a, j, outcomes);
    } else {
      assert outcomes + [] == outcomes;
    }
  }

  lemma OutcomesSplit(s: State, schedule: seq<Action>, j: JobId, before: seq<Outcome>)
    requires Shape(s) && schedule != []
    ensures before + Outcomes(s, schedule, j)
         == before + Added(s, schedule[0], j) + Outcomes(Advance(s, schedule[0]), schedule[1..], j)
  {
  }

  lemma {:induction false} RunTrace(s: State, schedule: seq<Action>, j: JobId, before: seq<Outcome>)
    requires Inv(s) && JobTrace(s, j, before)
    ensures Shape(Exec(s, schedule)) && JobTrace(Exec(s, schedule), j, before + Outcomes(s, schedule, j))
    decreases |schedule|
  {
    if schedule == [] {
      assert before + [] == before;
    } else {
      AdvanceTrace(s, schedule[0], j, before);
      RunTrace(Advance(s, schedule[0]), schedule[1..], j, before + Added(s, schedule[0], j));
      OutcomesSplit(s, schedule, j, before);
    }
  }

  // ---------- what the outcomes decide ----------

  function OutcomesOf(o: Options, now: int, schedule: seq<Action>, j: JobId): seq<Outcome> {
    Outcomes(Init(Clamp(o), now), schedule, j)
  }

  lemma TraceOfRun(o: Options, now: int, schedule: seq<Action>, j: JobId)
    ensures Inv(Run(o, now, schedule)) && JobTrace(Run(o, now, schedule), j, OutcomesOf(o, now, schedule, j))
  {
    var init := Init(Clamp(o), now);
    RunInv(o, now, schedule);
    InitInv(Clamp(o), now);
    RunTrace(init, schedule, j, []);
    assert [] + Outcomes(init, schedule, j) == Outcomes(init, schedule, j);
  }

  function Failures(outcomes: seq<Outcome>): nat {
    if outcomes == [] then 0
    else (if outcomes[0].Succeeds? then 0 else 1) + Failures(outcomes[1..])
  }

  lemma {:induction false} FailuresOf(outcomes: seq<Outcome>)
    ensures AllFailed(outcomes) ==> Failures(outcomes) == |outcomes|
    ensures LastSucceeded(outcomes) ==> Failures(outcomes) == |outcomes| - 1
    decreases |outcomes|
  {
    if outcomes != [] {
      FailuresOf(outcomes[1..]);
    }
  }

  /** A body of the job is running. */
  ghost predicate InBody(s: State, j: JobId) {
    exists i: nat :: Holds(s, i, j) && s.actors[i].Running?
  }

  /** A record that goes with what the job's bodies have returned. */
  ghost predicate TellsOutcomes(s: State, j: JobId, outcomes: seq<Outcome>) {
    && j < |s.history.jobs|
    && var r := s.history.jobs[j];
       && r.failures == Failures(outcomes)
       && |outcomes| == (if InBody(s, j) then r.attempts - 1 else r.attempts)
       && (r.processed == 1 ==> LastSucceeded(outcomes))
       && (r.failed == 1 ==> AllFailed(outcomes))
       && (r.hooks != [] ==> r.hooks == [CauseOf(outcomes)])
       && (j in s.history.settledOrder ==>
             && (r.processed == 1 <==> LastSucceeded(outcomes))
             && (r.dead == 1 <==> AllFailed(outcomes))
             && (r.hooks != [] <==> AllFailed(outcomes) && s.options.hasHook))
  }

  lemma RecordTells(s: State, j: JobId, outcomes: seq<Outcome>)
    requires Shape(s) && PlaceInv(s) && HandInv(s) && j < |s.history.jobs| && JobTrace(s, j, outcomes)
    ensures TellsOutcomes(s, j, outcomes)
  {
    RecordFits(s, j);
    FailuresOf(outcomes);
    var place := s.history.jobs[j].place;
    if place.InHand? {
      assert Holds(s, place.actor, j);
    }
    assert InBody(s, j) <==> place.InHand? && s.actors[place.actor].Running?;
  }

  /**
    In every run a job's record tells how its bodies ended. It is counted
    processed only after a body of it returned nil, which was the last one; it is
    dead-lettered only if none did, and then the hook gets the error of the last
    one, or the cancellation if there was none.
  */
  lemma OutcomesTold(o: Options, now: int, schedule: seq<Action>, j: JobId)
    requires j < |Run(o, now, schedule).history.jobs|
    ensures TellsOutcomes(Run(o, now, schedule), j, OutcomesOf(o, now, schedule, j))
  {
    TraceOfRun(o, now, schedule, j);
    RecordTells(Run(o, now, schedule), j, OutcomesOf(o, now, schedule, j));
  }

  /**
    When Wait returns nil through `done`, every accepted job either had a body
    return nil, once, or failed every time, and then the hook, if there is one, was called
    once with its last error.
  */
  lemma NilMeansAnswered(o: Options, now: int, schedule: seq<Action>, j: JobId)
    requires var s := Run(o, now, schedule);
             s.control.done && WaitOnDone(s) == Drained && j in s.history.sent
    ensures var s, outcomes := Run(o, now, schedule), OutcomesOf(o, now, schedule, j);
            && j < |s.history.jobs|
            && (LastSucceeded(outcomes) || AllFailed(outcomes))
            && s.history.jobs[j].hooks
               == if AllFailed(outcomes) && s.options.hasHook then [CauseOf(outcomes)] else []
  {
    WaitNilMeansDrained(o, now, schedule);
    JobLife(o, now, schedule, j);
    OutcomesTold(o, now, schedule, j);
  }

  // ---------- attempts that begin after the cancellation ----------

  /** `a` is the step by which actor `i` enters a job body after cancelJobs. */
  predicate StartsLate(s: State, a: Action, i: nat)
    requires Shape(s)
  {
    && a == ActorStep(i) && i < |s.actors| && s.control.cancelled
    && !s.actors[i].Running? && i < |Advance(s, a).actors| && Advance(s, a).actors[i].Running?
  }

  /** How often actor `i` does that along a schedule. */
  function LateStarts(s: State, schedule: seq<Action>, i: nat): nat
    requires Shape(s)
    decreases |schedule|
  {
    if schedule == [] then 0
    else (if StartsLate(s, schedule[0], i) then 1 else 0) + LateStarts(Advance(s, schedule[0]), schedule[1..], i)
  }

  lemma EffectLate(s: State, k: nat, a: Action, i: nat)
    requires Shape(s) && Enabled(s, a) && MovesJob(s, k, a) && i < |s.actors|
    ensures var e := JobEffect(s, k, a);
            e.late == if a.ActorStep? && e.next.Running? && s.control.cancelled then 1 else 0
  {
  }

  lemma StepLate(s: State, a: Action, i: nat)
    requires Shape(s) && Enabled(s, a) && i < |s.actors|
    ensures var t := Step(s, a);
            i < |t.history.late| && t.history.late[i] == s.history.late[i] + if StartsLate(s, a, i) then 1 else 0
  {
    StepShape(s, a);
    if ActorMoves(a) && !s.actors[a.actor].Receiving? {
      EffectLate(s, a.actor, a, i);
      AppliedLate(s, a.actor, JobEffect(s, a.actor, a), i);
    } else {
      LateKept(s, a);
    }
  }

  lemma AppliedLate(s: State, k: nat, e: Effect, i: nat)
    requires Shape(s) && k < |s.actors| && s.actors[k].HasJob() && i < |s.actors|
    ensures var t := ApplyEffect(s, k, e);
            && t.history.late[i] == s.history.late[i] + (if i == k then e.late else 0)
            && t.actors[i] == if i == k then e.next else s.actors[i]
  {
  }

  lemma LateKept(s: State, a: Action)
    requires Shape(s) && Enabled(s, a) && (ActorMoves(a) ==> s.actors[a.actor].Receiving?)
    ensures Step(s, a).history.late == s.history.late
    ensures a.ActorStep? ==> !Step(s, a).actors[a.actor].Running?
  {
    match a
    case ActorStep(k) => ReceivedLate(s, k);
    case CallStep(j) => CalledLate(s, j);
    case _ =>
  }

  lemma ReceivedLate(s: State, k: nat)
    requires Shape(s) && k < |s.actors|
    ensures var t := StepReceive(s, k); t.history.late == s.history.late && !t.actors[k].Running?
  {
  }

  lemma CalledLate(s: State, j: JobId)
    requires Shape(s) && j < |s.calls| && CallEnabled(s, s.calls[j])
    ensures StepCall(s, j).history.late == s.history.late
  {
  }

  lemma {:induction false} RunLate(s: State, schedule: seq<Action>, i: nat)
    requires Shape(s) && i <= s.options.workers
    ensures var t := Exec(s, schedule);
            t.options == s.options && t.history.late[i] == s.history.late[i] + LateStarts(s, schedule, i)
    decreases |schedule|
  {
    if schedule != [] {
      if Enabled(s, schedule[0]) {
        StepLate(s, schedule[0], i);
      }
      AdvanceOptions(s, schedule[0]);
      RunLate(Advance(s, schedule[0]), schedule[1..], i);
    }
  }

  /** Once cancelJobs was called each worker enters a body at most once, and the drainer never. */
  lemma LateStartsBounded(o: Options, now: int, schedule: seq<Action>, i: nat)
    requires i <= Clamp(o).workers
    ensures LateStarts(Init(Clamp(o), now), schedule, i) <= if i < Clamp(o).workers then 1 else 0
  {
    RunLate(Init(Clamp(o), now), schedule, i);
    RunInv(o, now, schedule);
  }

  // ---------- dates ----------

  /** From `s` to `t` no date changes, and a new one is that of `s`. */
  predicate Dated(s: State, t: State) {
    && (t.control.done && !s.control.done ==> t.control.doneAt == s.now)
    && (s.control.done ==> t.control.done && t.control.doneAt == s.control.doneAt)
    && (Seen(t.control) && !Seen(s.control) ==> s.parentDone && t.control.observedAt == s.now)
    && (Seen(s.control) ==> Seen(t.control) && t.control.observedAt == s.control.observedAt)
  }

  lemma DatesStep(s: State, a: Action)
    requires Shape(s) && PhaseInv(s) && Enabled(s, a)
    ensures Dated(s, Step(s, a))
  {
    if !a.CoordinatorStep? {
      ControlUntouched(s, a);
    }
  }

  /** The coordinator has seen the cancellation. */
  predicate Seen(c: Control) {
    !c.coordinator.Dormant? && !c.coordinator.AwaitingCancel?
  }

  /** `done` is closed by the entry at `k`, at the time `doneAt`. */
  ghost predicate DoneBy(o: Options, now: int, schedule: seq<Action>, k: nat, doneAt: int) {
    && k < |schedule|
    && var s := Run(o, now, schedule[..k]);
       !s.control.done && Run(o, now, schedule[..k + 1]).control.done && s.now == doneAt
  }

  /** The cancellation is seen by the entry at `k`, at the time `observedAt`. */
  ghost predicate SeenBy(o: Options, now: int, schedule: seq<Action>, k: nat, observedAt: int) {
    && k < |schedule|
    && var s := Run(o, now, schedule[..k]);
       !Seen(s.control) && Seen(Run(o, now, schedule[..k + 1]).control) && s.parentDone && s.now == observedAt
  }

  lemma LastEntry(o: Options, now: int, schedule: seq<Action>)
    requires schedule != []
    ensures var n := |schedule| - 1;
            Run(o, now, schedule) == Advance(Run(o, now, schedule[..n]), schedule[n])
  {
    var n := |schedule| - 1;
    assert schedule == schedule[..n] + [schedule[n]];
    ExecOneMore(Init(Clamp(o), now), schedule[..n], schedule[n]);
  }

  lemma LastDates(o: Options, now: int, schedule: seq<Action>)
    requires schedule != []
    ensures var n := |schedule| - 1;
            Dated(Run(o, now, schedule[..n]), Run(o, now, schedule))
  {
    var n := |schedule| - 1;
    var s := Run(o, now, schedule[..n]);
    LastEntry(o, now, schedule);
    RunInv(o, now, schedule[..n]);
    if Enabled(s, schedule[n]) {
      DatesStep(s, schedule[n]);
    }
  }

  lemma PrefixOfPrefix(schedule: seq<Action>, n: nat, k: nat)
    requires k < n <= |schedule|
    ensures schedule[..n][..k] == schedule[..k] && schedule[..n][..k + 1] == schedule[..k + 1]
  {
  }

  /** `doneAt` is the time at which `done` was closed. */
  lemma {:induction false} DoneIsDated(o: Options, now: int, schedule: seq<Action>) returns (k: nat)
    requires Run(o, now, schedule).control.done
    ensures DoneBy(o, now, schedule, k, Run(o, now, schedule).control.doneAt)
    decreases |schedule|
  {
    assert schedule != [];
    k := |schedule| - 1;
    LastDates(o, now, schedule);
    if Run(o, now, schedule[..k]).control.done {
      var n := k;
      k := DoneIsDated(o, now, schedule[..n]);
      PrefixOfPrefix(schedule, n, k);
    } else {
      assert schedule[..k + 1] == schedule;
    }
  }

  /** `observedAt` is the time at which the coordinator saw the cancellation. */
  lemma {:induction false} SeenIsDated(o: Options, now: int, schedule: seq<Action>) returns (k: nat)
    requires Seen(Run(o, now, schedule).control)
    ensures SeenBy(o, now, schedule, k, Run(o, now, schedule).control.observedAt)
    decreases |schedule|
  {
    assert schedule != [];
    k := |schedule| - 1;
    LastDates(o, now, schedule);
    if Seen(Run(o, now, schedule[..k]).control) {
      var n := k;
      k := SeenIsDated(o, now, schedule[..n]);
      PrefixOfPrefix(schedule, n, k);
    } else {
      assert schedule[..k + 1] == schedule;
    }
  }
}
