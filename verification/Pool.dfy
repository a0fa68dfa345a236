/**
  The pool itself: fields that its goroutines update in place. Each method is
  one atomic step of one goroutine, grouped by the function it belongs to, and
  is proved to be the step of the state machine; `Perform` schedules them.
*/
module Pool {
  import opened Basics
  import Counters
  import opened PoolModel
  import PoolInvariant
  import opened PoolSafety

  class Pool {
    const options: Options
    const metrics: Counters.Counters

    var jobs: seq<JobId>          // the buffered channel
    var closed: bool
    var stateMu: Holder
    var stopping: bool
    var accepted: int
    var settled: int
    var abandoned: int
    var started: bool             // startOnce
    var done: bool

    var parentDone: bool          // the context given to Start
    var cancelled: bool           // the execution context
    var workersDone: bool
    var drained: bool
    var panicked: bool
    var now: int
    var timer: int

    var calls: seq<Call>          // calls of Submit so far
    var actors: seq<Actor>        // the workers, then the drainer
    var coordinator: Coordinator

    ghost var exit: Exit
    ghost var lost: set<JobId>
    ghost var settledThen: set<JobId>
    ghost var observedAt: int
    ghost var doneAt: int
    ghost var history: History

    ghost function Controls(): Control
      reads this
    {
      Control(coordinator, stopping, closed, cancelled, abandoned, timer, done,
              exit, lost, settledThen, observedAt, doneAt)
    }

    ghost function View(): State
      reads this, metrics
    {
      State(options, jobs, stateMu, accepted, settled, metrics.View(), Controls(), started, parentDone,
            workersDone, drained, panicked, now, calls, actors, history)
    }

    ghost predicate Valid()
      reads this, metrics
    {
      PoolInvariant.Inv(View())
    }

    /** What a single step needs; `Perform` shows that steps keep `Valid` too. */
    ghost predicate Formed()
      reads this, metrics
    {
      Shape(View())
    }

    constructor (o: Options, start: int)
      ensures Valid() && fresh(metrics)
      ensures View() == Init(Clamp(o), start)
      ensures metrics.queueCapacity == Clamp(o).capacity
    {
      options := Clamp(o);
      metrics := new Counters.Counters(Clamp(o).capacity);
      jobs, closed, stateMu, stopping := [], false, Free, false;
      accepted, settled, abandoned := 0, 0, 0;
      started, done, parentDone, cancelled, workersDone, drained, panicked :=
        false, false, false, false, false, false, false;
      now, timer := start, start;
      calls, actors, coordinator := [], seq(Clamp(o).workers + 1, _ => Unstarted), Dormant;
      exit, lost, settledThen, observedAt, doneAt := NoExit, {}, {}, start, start;
      history := History([], [], [], [], seq(Clamp(o).workers + 1, _ => 0));
      new;
      assert View() == Init(Clamp(o), start);
      PoolInvariant.InitInv(Clamp(o), start);
    }

    // ---------- Submit ----------

    /** A call of Submit begins. */
    method BeginSubmit() returns (j: JobId)
      requires Formed()
      modifies this
      ensures j == |old(calls)| && View() == Step(old(View()), CallSubmit)
    {
      j := |calls|;
      calls := calls + [Waiting];
      history := history.(jobs := history.jobs + [NEW_RECORD]);
    }

    // Submit, one statement at a time: lock, read `stopping`, try the channel, count twice, unlock.

    method LockForSubmit(j: JobId)
      requires Formed() && j < |calls| && calls[j].Waiting?
      requires stateMu.Free?
      modifies this`calls, this`stateMu
      ensures View() == StepCall(old(View()), j)
    {
      stateMu := HeldByCall(j);
      calls := calls[j := Inspecting];
    }

    method InspectStopping(j: JobId)
      requires Formed() && j < |calls| && calls[j].Inspecting?
      modifies this`calls
      ensures View() == StepCall(old(View()), j)
    {
      calls := calls[j := if stopping then Returning(PoolStopped) else Sending];
    }

    method PutInChannel(j: JobId)
      requires Formed() && j < |calls| && calls[j].Sending? && !closed && |jobs| < options.capacity
      modifies this`calls, this`jobs, this`history
      ensures View() == StepCall(old(View()), j)
    {
      ghost var s := View();
      SendStep(s, j);
      jobs := jobs + [j];
      calls := calls[j := Sent];
      history := Send(history, j);
      assert View() == s.(calls := calls, queue := jobs, history := history);
    }

    /** The select on the channel, which never blocks. */
    method TrySend(j: JobId)
      requires Formed() && j < |calls| && calls[j].Sending?
      modifies this`calls, this`jobs, this`history, this`panicked
      ensures View() == StepCall(old(View()), j)
    {
      if closed {
        panicked := true;
      } else if |jobs| < options.capacity {
        PutInChannel(j);
      } else {
        calls := calls[j := Returning(QueueFull)];
      }
    }

    method CountAccepted(j: JobId)
      requires Formed() && j < |calls| && calls[j].Sent?
      modifies this`calls, this`accepted
      ensures View() == StepCall(old(View()), j)
    {
      accepted := accepted + 1;
      calls := calls[j := Counted];
    }

    method RaiseDepth(j: JobId)
      requires Formed() && j < |calls| && calls[j].Counted?
      modifies this`calls, metrics`queueDepth
      ensures View() == StepCall(old(View()), j)
    {
      metrics.AddQueueDepth(1);
      calls := calls[j := Returning(Accepted)];
    }

    method UnlockSubmit(j: JobId)
      requires Formed() && j < |calls| && calls[j].Returning?
      modifies this`calls, this`stateMu
      ensures View() == StepCall(old(View()), j)
    {
      stateMu := Free;
      calls := calls[j := Returned(calls[j].verdict)];
    }

    // ---------- workers and drainer ----------

    /** The range over the job channel. */
    method Receive(i: nat)
      requires Formed() && i < |actors| && actors[i].Receiving? && ActorEnabled(View(), actors[i])
      modifies this
      ensures View() == StepReceive(old(View()), i)
    {
      if jobs == [] {
        actors := actors[i := Exited];
      } else {
        var j := jobs[0];
        jobs := jobs[1..];
        actors := actors[i := Received(j)];
        history := history.(
          received := history.received + [j],
          jobs := history.jobs[j := history.jobs[j].(place := InHand(i))]);
      }
    }

    /** The effect of the next step of actor `i`. */
    ghost function Effects(i: nat): Effect
      requires i < |actors| && Busy(actors[i]) && actors[i].job < |history.jobs|
      reads this
    {
      EffectOfActor(options, i == options.workers, cancelled, actors[i], history.jobs[actors[i].job])
    }

    /** The history that goes with a step of actor `i`. */
    ghost method Note(i: nat, e: Effect)
      requires i < |actors| == |history.late| && actors[i].HasJob() && actors[i].job < |history.jobs|
      modifies this`history
      ensures history == NoteEffect(old(history), i, actors[i].job, e)
    {
      history := NoteEffect(history, i, actors[i].job, e);
    }

    // jobDequeued: lock, lower the depth, unlock.

    method LockDequeued(i: nat)
      requires Formed() && i < |actors| && actors[i].Received?
      requires stateMu.Free?
      modifies this`actors, this`history, this`stateMu
      ensures View() == ApplyEffect(old(View()), i, old(Effects(i)))
    {
      Note(i, Effects(i));
      stateMu := HeldByActor(i);
      actors := actors[i := Locked(actors[i].job)];
    }

    method LowerDepth(i: nat)
      requires Formed() && i < |actors| && actors[i].Locked?
      modifies this`actors, this`history, metrics`queueDepth
      ensures View() == ApplyEffect(old(View()), i, old(Effects(i)))
    {
      Note(i, Effects(i));
      metrics.AddQueueDepth(-1);
      actors := actors[i := Lowered(actors[i].job)];
    }

    method UnlockDequeued(i: nat)
      requires Formed() && i < |actors| && actors[i].Lowered?
      modifies this`actors, this`history, this`stateMu
      ensures View() == ApplyEffect(old(View()), i, old(Effects(i)))
    {
      Note(i, Effects(i));
      stateMu := Free;
      actors := actors[i := Checking(actors[i].job)];
    }

    /** The reading of the execution context after jobDequeued: in work, and in drainQueue. */
    method CheckContext(i: nat)
      requires Formed() && i < |actors| && actors[i].Checking?
      modifies this`actors, this`history
      ensures View() == ApplyEffect(old(View()), i, old(Effects(i)))
    {
      Note(i, Effects(i));
      var j := actors[i].job;
      if i == options.workers || cancelled {
        actors := actors[i := Condemned(j, if cancelled then Some(ContextCanceled) else None)];
      } else {
        actors := actors[i := Looping(j, 1, None)];
      }
    }

    /** execute: the head of the attempt loop. */
    method BeginAttempt(i: nat)
      requires Formed() && i < |actors| && actors[i].Looping?
      modifies this`actors, this`history
      ensures View() == ApplyEffect(old(View()), i, old(Effects(i)))
    {
      Note(i, Effects(i));
      var Looping(j, attempt, err) := actors[i];
      if attempt <= options.maxAttempts {
        actors := actors[i := Running(j, attempt)];
      } else {
        actors := actors[i := Condemned(j, err)];
      }
    }

    /** execute: the reading of the context after a failure. */
    method CheckAfterFailure(i: nat)
      requires Formed() && i < |actors| && actors[i].Failed?
      modifies this`actors, this`history
      ensures View() == ApplyEffect(old(View()), i, old(Effects(i)))
    {
      Note(i, Effects(i));
      var Failed(j, attempt, err) := actors[i];
      if cancelled {
        actors := actors[i := Condemned(j, Some(err))];
      } else {
        actors := actors[i := Looping(j, attempt + 1, Some(err))];
      }
    }

    /** execute: the return after a success. */
    method CountProcessed(i: nat)
      requires Formed() && i < |actors| && actors[i].Succeeded?
      modifies this`actors, this`history, metrics`jobsProcessed
      ensures View() == ApplyEffect(old(View()), i, old(Effects(i)))
    {
      Note(i, Effects(i));
      metrics.JobProcessed();
      actors := actors[i := Processed(actors[i].job)];
    }

    // recordDeadLetter: the two counters, and the hook if there is one.

    method CountFailed(i: nat)
      requires Formed() && i < |actors| && actors[i].Condemned?
      modifies this`actors, this`history, metrics`jobsFailed
      ensures View() == ApplyEffect(old(View()), i, old(Effects(i)))
    {
      Note(i, Effects(i));
      metrics.JobFailed();
      actors := actors[i := FailureCounted(actors[i].job, actors[i].cause)];
    }

    method CountDeadLettered(i: nat)
      requires Formed() && i < |actors| && actors[i].FailureCounted?
      modifies this`actors, this`history, metrics`jobsDeadLettered
      ensures View() == ApplyEffect(old(View()), i, old(Effects(i)))
    {
      Note(i, Effects(i));
      metrics.JobDeadLettered();
      actors := actors[i := DeathCounted(actors[i].job, actors[i].cause)];
    }

    method CallDeadLetter(i: nat)
      requires Formed() && i < |actors| && actors[i].DeathCounted?
      modifies this`actors, this`history
      ensures View() == ApplyEffect(old(View()), i, old(Effects(i)))
    {
      Note(i, Effects(i));
      var DeathCounted(j, err) := actors[i];
      if options.hasHook {
        actors := actors[i := Hooked(j, err)];
      } else {
        actors := actors[i := Settling(j)];
      }
    }

    /** The end of execute after a success, and of recordDeadLetter. */
    method Settle(i: nat)
      requires Formed() && i < |actors| && (actors[i].Processed? || actors[i].Settling?)
      modifies this`actors, this`history, this`settled
      ensures View() == ApplyEffect(old(View()), i, old(Effects(i)))
    {
      ghost var s, e := View(), Effects(i);
      Note(i, e);
      settled := settled + 1;
      actors := actors[i := Receiving];
      assert View() == ApplyEffect(s, i, e);
    }

    /** runJob: a panic is recovered into an error. */
    method ReturnFromBody(i: nat, outcome: Outcome)
      requires Formed() && i < |actors| && actors[i].Running?
      modifies this`actors, this`history
      ensures View() == Step(old(View()), BodyReturns(i, outcome))
      ensures outcome.Succeeds? <==> actors[i].Succeeded?
      ensures outcome.Fails? <==> actors[i].Failed? && actors[i].error.JobError?
      ensures outcome.Panics? <==> actors[i].Failed? && actors[i].error.JobPanic?
    {
      var Running(j, attempt) := actors[i];
      Note(i, EffectOfReturn(j, attempt, outcome, history.jobs[j]));
      match outcome
      case Succeeds => actors := actors[i := Succeeded(j)];
      case Fails(code) => actors := actors[i := Failed(j, attempt, JobError(code))];
      case Panics(code) => actors := actors[i := Failed(j, attempt, JobPanic(code))];
    }

    method ReturnFromHook(i: nat)
      requires Formed() && i < |actors| && actors[i].Hooked?
      modifies this`actors, this`history
      ensures View() == Step(old(View()), HookReturns(i))
    {
      Note(i, Quiet(Settling(actors[i].job), history.jobs[actors[i].job]));
      actors := actors[i := Settling(actors[i].job)];
    }

    // ---------- the coordinator ----------

    method Start()
      requires Formed()
      modifies this
      ensures View() == StepStart(old(View()))
    {
      if !started {
        started := true;
        coordinator := AwaitingCancel;
        actors := seq(options.workers, _ => Receiving) + [actors[options.workers]];
      }
    }

    method ObserveCancel()
      requires Formed() && coordinator.AwaitingCancel?
      requires parentDone
      modifies this`coordinator, this`observedAt
      ensures View() == PoolModel.StepCoordinator(old(View()), OnChannel)
    {
      observedAt := now;
      coordinator := Acquiring;
    }

    // stopAccepting: lock, set `stopping`, close the channel, unlock.

    method LockToStop()
      requires Formed() && coordinator.Acquiring?
      requires stateMu.Free?
      modifies this`coordinator, this`stateMu
      ensures View() == PoolModel.StepCoordinator(old(View()), OnChannel)
    {
      stateMu := HeldByCoordinator;
      coordinator := InspectingStop;
    }

    method SetStopping()
      requires Formed() && coordinator.InspectingStop?
      modifies this`coordinator, this`stopping
      ensures View() == PoolModel.StepCoordinator(old(View()), OnChannel)
    {
      if !stopping {
        stopping := true;
        coordinator := Closing;
      } else {
        coordinator := Unlocking;
      }
    }

    method CloseJobs()
      requires Formed() && coordinator.Closing?
      modifies this`coordinator, this`closed, this`panicked
      ensures View() == PoolModel.StepCoordinator(old(View()), OnChannel)
    {
      if closed {
        panicked := true;
      }
      closed := true;
      coordinator := Unlocking;
    }

    method UnlockStopped()
      requires Formed() && coordinator.Unlocking?
      modifies this`coordinator, this`stateMu
      ensures View() == PoolModel.StepCoordinator(old(View()), OnChannel)
    {
      stateMu := Free;
      coordinator := ArmingDrain;
    }

    // The two timers, and the selects on them.

    method ArmDrain()
      requires Formed() && coordinator.ArmingDrain?
      modifies this`coordinator, this`timer
      ensures View() == PoolModel.StepCoordinator(old(View()), OnChannel)
    {
      timer := now + options.drainTimeout;
      coordinator := DrainSelect;
    }

    method ArmUnwind()
      requires Formed() && coordinator.ArmingUnwind?
      modifies this`coordinator, this`timer
      ensures View() == PoolModel.StepCoordinator(old(View()), OnChannel)
    {
      timer := now + UNWIND_WINDOW;
      coordinator := UnwindSelect;
    }

    /** `arm` is a ready arm. */
    method Select(arm: Arm)
      requires Formed() && CoordinatorEnabled(View(), arm)
      requires coordinator.DrainSelect? || coordinator.UnwindSelect?
      modifies this`coordinator, this`exit, this`lost, this`settledThen
      ensures View() == PoolModel.StepCoordinator(old(View()), arm)
    {
      if arm.OnTimer? {
        coordinator := if coordinator.DrainSelect? then Cancelling else LoadingAccepted;
      } else {
        Account(if coordinator.DrainSelect? then WorkersFinished else Unwound);
        coordinator := FinalCancel;
      }
    }

    /** What is lost and what is settled is fixed here. */
    ghost method Account(reason: Exit)
      modifies `exit, `lost, `settledThen
      ensures exit == reason && lost == UnsettledJobs(history) && settledThen == SettledJobs(history)
    {
      exit, lost, settledThen := reason, UnsettledJobs(history), SettledJobs(history);
    }

    method SpawnDrainer()
      requires Formed() && coordinator.Spawning?
      modifies this`coordinator, this`actors
      ensures View() == PoolModel.StepCoordinator(old(View()), OnChannel)
    {
      actors := actors[options.workers := Receiving];
      coordinator := ArmingUnwind;
    }

    // recordAbandoned: the two loads and the difference, the store, and the metric.

    method LoadAccepted()
      requires Formed() && coordinator.LoadingAccepted?
      modifies this`coordinator
      ensures View() == PoolModel.StepCoordinator(old(View()), OnChannel)
    {
      coordinator := LoadingSettled(accepted);
    }

    method LoadSettled()
      requires Formed() && coordinator.LoadingSettled?
      modifies this`coordinator, this`exit, this`lost, this`settledThen
      ensures View() == PoolModel.StepCoordinator(old(View()), OnChannel)
    {
      var count := coordinator.accepted - settled;
      Account(TimedOut);
      coordinator := if count <= 0 then FinalCancel else StoringAbandoned(count);
    }

    method StoreAbandoned()
      requires Formed() && coordinator.StoringAbandoned?
      modifies this`coordinator, this`abandoned
      ensures View() == PoolModel.StepCoordinator(old(View()), OnChannel)
    {
      abandoned := coordinator.count;
      coordinator := CountingAbandoned(coordinator.count);
    }

    method CountAbandoned()
      requires Formed() && coordinator.CountingAbandoned?
      modifies this`coordinator, metrics`jobsAbandoned
      ensures View() == PoolModel.StepCoordinator(old(View()), OnChannel)
    {
      metrics.AddJobsAbandoned(coordinator.count);
      coordinator := FinalCancel;
    }

    /** The two calls of cancelJobs. */
    method CancelJobs()
      requires Formed() && (coordinator.Cancelling? || coordinator.FinalCancel?)
      modifies this`coordinator, this`cancelled
      ensures View() == PoolModel.StepCoordinator(old(View()), OnChannel)
    {
      cancelled := true;
      coordinator := if coordinator.Cancelling? then Spawning else ClosingDone;
    }

    method CloseDone()
      requires Formed() && coordinator.ClosingDone?
      modifies this`coordinator, this`done, this`doneAt
      ensures View() == PoolModel.StepCoordinator(old(View()), OnChannel)
    {
      ghost var s := View();
      DoneStep(s);
      done := true;
      doneAt := now;
      coordinator := Finished;
      assert View() == s.(control := Controls());
    }

    // ---------- the scheduler ----------

    method CanPerform(a: Action) returns (able: bool)
      requires Formed()
      ensures able == Enabled(View(), a)
    {
      match a
      case Start => able := true;
      case CancelParent => able := true;
      case Tick(_) => able := true;
      case CallSubmit => able := true;
      case CallStep(j) => able := j < |calls| && !calls[j].Returned? && (calls[j].Waiting? ==> stateMu.Free?);
      case ActorStep(i) =>
        if i >= |actors| {
          able := false;
        } else if actors[i].Receiving? {
          able := jobs != [] || closed;
        } else {
          able := Busy(actors[i]) && (actors[i].Received? ==> stateMu.Free?);
        }
      case BodyReturns(i, _) => able := i < |actors| && actors[i].Running?;
      case HookReturns(i) => able := i < |actors| && actors[i].Hooked?;
      case CoordinatorStep(arm) =>
        match coordinator {
          case Dormant => able := false;
          case Finished => able := false;
          case AwaitingCancel => able := parentDone;
          case Acquiring => able := stateMu.Free?;
          case DrainSelect => able := if arm.OnChannel? then workersDone else now >= timer;
          case UnwindSelect => able := if arm.OnChannel? then drained else now >= timer;
          case _ => able := true;
        }
      case SignalWorkersDone =>
        able := started && !workersDone && forall i | 0 <= i < |actors| && i != options.workers :: actors[i].Exited?;
      case SignalDrained =>
        able := actors[options.workers].Exited? && workersDone && !drained;
    }

    method StepSubmit(j: JobId)
      requires Formed() && j < |calls| && CallEnabled(View(), calls[j])
      modifies this, metrics
      ensures View() == Step(old(View()), CallStep(j))
    {
      match calls[j]
      case Waiting => LockForSubmit(j);
      case Inspecting => InspectStopping(j);
      case Sending => TrySend(j);
      case Sent => CountAccepted(j);
      case Counted => RaiseDepth(j);
      case Returning(_) => UnlockSubmit(j);
    }

    method StepActor(i: nat)
      requires Formed() && i < |actors| && ActorEnabled(View(), actors[i])
      modifies this, metrics
      ensures View() == Step(old(View()), ActorStep(i))
    {
      match actors[i]
      case Receiving => Receive(i);
      case Received(_) => LockDequeued(i);
      case Locked(_) => LowerDepth(i);
      case Lowered(_) => UnlockDequeued(i);
      case Checking(_) => CheckContext(i);
      case Looping(_, _, _) => BeginAttempt(i);
      case Succeeded(_) => CountProcessed(i);
      case Processed(_) => Settle(i);
      case Failed(_, _, _) => CheckAfterFailure(i);
      case Condemned(_, _) => CountFailed(i);
      case FailureCounted(_, _) => CountDeadLettered(i);
      case DeathCounted(_, _) => CallDeadLetter(i);
      case Settling(_) => Settle(i);
    }

    method StepCoordinator(arm: Arm)
      requires Formed() && CoordinatorEnabled(View(), arm)
      modifies this, metrics
      ensures View() == Step(old(View()), CoordinatorStep(arm))
    {
      match coordinator
      case AwaitingCancel => ObserveCancel();
      case Acquiring => LockToStop();
      case InspectingStop => SetStopping();
      case Closing => CloseJobs();
      case Unlocking => UnlockStopped();
      case ArmingDrain => ArmDrain();
      case DrainSelect => Select(arm);
      case Cancelling => CancelJobs();
      case Spawning => SpawnDrainer();
      case ArmingUnwind => ArmUnwind();
      case UnwindSelect => Select(arm);
      case LoadingAccepted => LoadAccepted();
      case LoadingSettled(_) => LoadSettled();
      case StoringAbandoned(_) => StoreAbandoned();
      case CountingAbandoned(_) => CountAbandoned();
      case FinalCancel => CancelJobs();
      case ClosingDone => CloseDone();
    }

    // The remaining actions write one flag, or the clock.

    method CancelParentContext()
      requires Formed()
      modifies this`parentDone
      ensures View() == Step(old(View()), CancelParent)
    {
      parentDone := true;
    }

    method LetTimePass(duration: nat)
      requires Formed()
      modifies this`now
      ensures View() == Step(old(View()), Tick(duration))
    {
      now := now + duration;
    }

    method CloseWorkersDone()
      requires Formed() && Enabled(View(), SignalWorkersDone)
      modifies this`workersDone
      ensures View() == Step(old(View()), SignalWorkersDone)
    {
      workersDone := true;
    }

    /** The inner `settled` channel. */
    method CloseDrained()
      requires Formed() && Enabled(View(), SignalDrained)
      modifies this`drained
      ensures View() == Step(old(View()), SignalDrained)
    {
      drained := true;
    }

    /** One scheduling decision. */
    method Perform(a: Action)
      requires Valid()
      modifies this, metrics
      ensures Valid() && View() == Advance(old(View()), a)
    {
      ghost var s := View();
      var able := CanPerform(a);
      if able {
        PoolInvariant.StepInv(s, a);
        match a {
          case Start => Start();
          case CallSubmit => var _ := BeginSubmit();
          case CallStep(j) => StepSubmit(j);
          case ActorStep(i) => StepActor(i);
          case BodyReturns(i, outcome) => ReturnFromBody(i, outcome);
          case HookReturns(i) => ReturnFromHook(i);
          case CoordinatorStep(arm) => StepCoordinator(arm);
          case CancelParent => CancelParentContext();
          case Tick(d) => LetTimePass(d);
          case SignalWorkersDone => CloseWorkersDone();
          case SignalDrained => CloseDrained();
        }
      }
    }

    /** Every goroutine in the order the schedule names them. */
    method RunSchedule(schedule: seq<Action>)
      requires Valid()
      modifies this, metrics
      ensures Valid() && View() == Exec(old(View()), schedule)
    {
      for k := 0 to |schedule|
        invariant Valid()
        invariant Exec(View(), schedule[k..]) == Exec(old(View()), schedule)
      {
        assert schedule[k..][0] == schedule[k] && schedule[k..][1..] == schedule[k + 1..];
        Perform(schedule[k]);
      }
      assert schedule[|schedule|..] == [];
    }


    // ---------- whole calls ----------

    /**
      One whole call of Submit; `gaps` is what everybody else does before each of
      its statements. It can be kept waiting only by the mutex.
    */
    method Submit(gaps: seq<seq<Action>>) returns (j: JobId, verdict: Option<Verdict>)
      requires Valid() && CallGaps(|calls|, gaps)
      modifies this, metrics
      ensures Valid() && j == |old(calls)|
      ensures Submitted(old(View()), View(), j, gaps, verdict)
    {
      j := |calls|;
      ghost var start := View();
      CallBegins(start, gaps);
      RunSchedule(CallSchedule(j, gaps[..1]));
      verdict := FinishSubmit(j, gaps, 1, start);
    }

    method NextStatement(j: JobId, gaps: seq<seq<Action>>, k: nat, ghost start: State)
      requires Shape(start) && CallGaps(j, gaps) && InCall(start, View(), j, gaps, k)
      requires PoolInvariant.CallHolds(calls[j])
      modifies this, metrics
      ensures k < 6 && InCall(start, View(), j, gaps, k + 1)
    {
      CallContinues(start, View(), j, gaps, k);
      RunSchedule(gaps[k] + [CallStep(j)]);
    }

    /** The statements of a call after the first `k`; none if that is still waiting. */
    method FinishSubmit(j: JobId, gaps: seq<seq<Action>>, k: nat, ghost start: State) returns (verdict: Option<Verdict>)
      requires Shape(start) && CallGaps(j, gaps) && InCall(start, View(), j, gaps, k)
      modifies this, metrics
      ensures Submitted(start, View(), j, gaps, verdict)
      decreases 6 - k, 1
    {
      if PoolInvariant.CallHolds(calls[j]) {
        verdict := ContinueSubmit(j, gaps, k, start);
      } else {
        verdict := EndSubmit(j, gaps, k, start);
      }
    }

    method ContinueSubmit(j: JobId, gaps: seq<seq<Action>>, k: nat, ghost start: State)
      returns (verdict: Option<Verdict>)
      requires Shape(start) && CallGaps(j, gaps) && InCall(start, View(), j, gaps, k)
      requires PoolInvariant.CallHolds(calls[j])
      modifies this, metrics
      ensures Submitted(start, View(), j, gaps, verdict)
      decreases 6 - k, 0
    {
      NextStatement(j, gaps, k, start);
      verdict := FinishSubmit(j, gaps, k + 1, start);
    }

    method EndSubmit(j: JobId, gaps: seq<seq<Action>>, k: nat, ghost start: State) returns (verdict: Option<Verdict>)
      requires Shape(start) && CallGaps(j, gaps) && InCall(start, View(), j, gaps, k)
      requires !PoolInvariant.CallHolds(calls[j])
      ensures Submitted(start, View(), j, gaps, verdict)
    {
      CallEnds(start, View(), j, gaps, k);
      verdict := ResultOf(calls[j]);
    }

    /** The select of Wait, with `arm` picking when both arms are ready; none ready means it still waits. */
    method Wait(deadline: int, arm: Arm) returns (result: Option<WaitResult>)
      requires Valid()
      ensures result.None? <==> !done && now < deadline
      ensures result == Some(ContextExpired) ==> now >= deadline
      ensures done && now < deadline ==> result == Some(WaitOnDone(View()))
      ensures done && now >= deadline ==> result == Some(if arm.OnChannel? then WaitOnDone(View()) else ContextExpired)
      ensures result == WaitSelect(View(), deadline, arm)
      ensures result.Some? && result != Some(ContextExpired) ==>
                result == Some(WaitOnDone(View())) && AccountedFor(View())
    {
      if done && (now < deadline || arm.OnChannel?) {
        DoneIsAccountedFor(View());
        return Some(if abandoned > 0 then DrainIncomplete(abandoned) else Drained);
      }
      return if now >= deadline then Some(ContextExpired) else None;
    }
  }

  /** The send, when the channel is open and has room. */
  lemma SendStep(s: State, j: JobId)
    requires Shape(s) && j < |s.calls| && s.calls[j].Sending?
    requires !s.control.closed && |s.queue| < s.options.capacity
    ensures StepCall(s, j) == s.(calls := s.calls[j := Sent], queue := s.queue + [j], history := Send(s.history, j))
  {
    assert s.metrics.(queueDepth := s.metrics.queueDepth + 0) == s.metrics;
  }

  /** The last step of the coordinator. */
  lemma DoneStep(s: State)
    requires Shape(s) && s.control.coordinator.ClosingDone?
    ensures PoolModel.StepCoordinator(s, OnChannel)
         == s.(control := s.control.(coordinator := Finished, done := true, doneAt := s.now))
  {
  }
}
