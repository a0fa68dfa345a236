/**
  The API role of the process: it starts the pool, serves, and waits for the
  pool within the shutdown budget; and the exit code each outcome maps to.
*/
module Process {
  import opened Basics
  import opened PoolModel
  import PoolInvariant
  import opened PoolSafety
  import PoolStuck
  import opened Pool
  import opened Shutdown
  import Sums

  /** How `pool.Wait` maps to the exit code: abandoned work is reported, but is not a failed process. */
  function ExitCode(r: WaitResult): int {
    match r
    case Drained => 0
    case DrainIncomplete(_) => 0
    case ContextExpired => 1
  }

  ghost function View(pool: Pool, budget: ShutdownBudget): System
    reads pool, pool.metrics, budget
  {
    System(pool.View(), budget.View())
  }

  method HandleEvent(pool: Pool, budget: ShutdownBudget, e: Event)
    requires pool.Valid()
    modifies pool, pool.metrics, budget
    ensures pool.Valid()
    ensures View(pool, budget) == AdvanceSystem(old(View(pool, budget)), e)
  {
    match e
    case PoolEvent(a) => pool.Perform(a);
    case BudgetEvent =>
      if pool.parentDone {
        budget.ObserveCancellation(pool.now);
      }
  }

  /** Everything that runs beside the main goroutine, for a while. */
  method RunEvents(pool: Pool, budget: ShutdownBudget, events: seq<Event>)
    requires pool.Valid()
    modifies pool, pool.metrics, budget
    ensures pool.Valid()
    ensures View(pool, budget) == ExecSystem(old(View(pool, budget)), events)
  {
    for k := 0 to |events|
      invariant pool.Valid()
      invariant ExecSystem(View(pool, budget), events[k..]) == ExecSystem(old(View(pool, budget)), events)
    {
      assert events[k..][0] == events[k] && events[k..][1..] == events[k + 1..];
      HandleEvent(pool, budget, events[k]);
    }
    assert events[|events|..] == [];
  }

  /** The same, when what has run so far is known. */
  method Continue(pool: Pool, budget: ShutdownBudget, events: seq<Event>,
                  ghost o: Options, ghost start: int, ghost before: seq<Event>)
    requires pool.Valid() && View(pool, budget) == ProcessRun(o, start, before)
    modifies pool, pool.metrics, budget
    ensures pool.Valid()
    ensures View(pool, budget) == ProcessRun(o, start, before + events)
  {
    ExecSystemConcat(InitSystem(o, o.drainTimeout, WORKER_SHUTDOWN_MARGIN, start), before, events);
    RunEvents(pool, budget, events);
  }

  // ---------- what serveAPI comes to ----------

  /** What the world around the API role decides. */
  datatype World = World(
    opening: seq<Event>,       // from the making of the budget until the pool is started
    starting: seq<Event>,      // until the listener is asked for
    listens: bool,
    serving: seq<Event>,       // until Serve returns
    servesCleanly: bool,
    asking: seq<Event>,        // until the parent context is read
    answering: seq<Event>,     // until the clock is read, or the observer's channel is tried
    waiting: seq<Event>,       // until the select of Wait is decided
    arm: Arm)
  {
    predicate Serves() {
      listens && servesCleanly
    }
  }

  /** The opening, and the start of the pool. */
  function Booted(world: World): seq<Event> {
    world.opening + [PoolEvent(Start)]
  }

  /** Everything until Serve has returned, or the listener has failed. */
  function Beginning(world: World): seq<Event> {
    Booted(world) + world.starting + if world.listens then world.serving else []
  }

  /** Has the caller of the deadline found the parent context cancelled? */
  function FoundCancelled(o: Options, start: int, world: World): bool {
    ProcessRun(o, start, Beginning(world) + world.asking).pool.parentDone
  }

  /** Everything until the deadline is known, or the process waits for the observer. */
  function UntilDeadline(world: World): seq<Event> {
    Beginning(world) + world.asking + world.answering
  }

  /** The deadline: the parent context is read before the clock; None while it waits for the observer. */
  function DeadlineAt(o: Options, start: int, world: World): Option<int> {
    var s := ProcessRun(o, start, UntilDeadline(world));
    DeadlineOf(s.budget, FoundCancelled(o, start, world), s.pool.now)
  }

  /** What becomes of the process. `code` is None while it still waits. */
  datatype Ending = Ending(system: System, deadline: Option<int>, result: Option<WaitResult>, code: Option<int>)

  ghost function Served(o: Options, start: int, world: World): Ending {
    if !world.Serves() then Ending(ProcessRun(o, start, Beginning(world)), None, None, Some(1))
    else
      var events, deadline := UntilDeadline(world), DeadlineAt(o, start, world);
      if deadline.None? then Ending(ProcessRun(o, start, events), None, None, None)
      else
        var s := ProcessRun(o, start, events + world.waiting);
        var result := WaitSelect(s.pool, deadline.value, world.arm);
        Ending(s, deadline, result, CodeOf(result))
  }

  function CodeOf(result: Option<WaitResult>): Option<int> {
    if result.Some? then Some(ExitCode(result.value)) else None
  }

  lemma ProcessInv(o: Options, start: int, events: seq<Event>)
    ensures PoolInvariant.Inv(ProcessRun(o, start, events).pool)
  {
    PoolIsIndependent(InitSystem(o, o.drainTimeout, WORKER_SHUTDOWN_MARGIN, start), events);
    PoolInvariant.RunInv(o, start, PoolPart(events));
  }

  /**
    What the exit code says, in every run. Code 0 comes only through the pool's
    `done`, with every accepted job settled, or counted as abandoned at the
    accounting instant. Code 1 comes from the listener, from Serve, or from an
    expired deadline. The process waits exactly as long as the pool is not done
    and the deadline is not there.
  */
  lemma ExitCodeMeans(o: Options, start: int, world: World)
    ensures var e := Served(o, start, world);
            var s := e.system.pool;
            && (e.code == Some(0) ==> e.result == Some(WaitOnDone(s)) && AccountedFor(s))
            && (e.code == Some(1) <==> !world.Serves() || e.result == Some(ContextExpired))
            && (e.code == None || e.code == Some(0) || e.code == Some(1))
            && (e.code == None <==>
                  world.Serves() && (e.deadline.None? || (!s.control.done && s.now < e.deadline.value)))
            && (e.result == Some(ContextExpired) ==> s.now >= e.deadline.value)
  {
    if Served(o, start, world).code == Some(0) {
      DoneAccounted(o, start, UntilDeadline(world) + world.waiting);
    }
  }

  lemma DoneAccounted(o: Options, start: int, events: seq<Event>)
    requires ProcessRun(o, start, events).pool.control.done
    ensures AccountedFor(ProcessRun(o, start, events).pool)
  {
    ProcessInv(o, start, events);
    DoneIsAccountedFor(ProcessRun(o, start, events).pool);
  }

  /**
    Once the pool is done the exit code is 0 whichever arm the select of Wait
    takes, if and only if the deadline has not passed.
  */
  lemma ZeroForEitherArm(o: Options, start: int, world: World)
    requires var e := Served(o, start, world);
             world.Serves() && e.deadline.Some? && e.system.pool.control.done
    ensures var e := Served(o, start, world);
            (forall arm :: Served(o, start, world.(arm := arm)).code == Some(0))
            <==> e.system.pool.now < e.deadline.value
  {
    forall arm ensures DeadlineAt(o, start, world.(arm := arm)) == DeadlineAt(o, start, world) {
    }
    assert Served(o, start, world.(arm := OnTimer)).system == Served(o, start, world).system;
  }

  /** A pool that is done and lost nothing, and an exit code of 1 all the same. */
  ghost predicate DoneYetFailed(e: Ending) {
    && e.result == Some(ContextExpired) && e.code == Some(1)
    && e.system.pool.control.done && e.system.pool.control.lost == {} && FullyAccounted(e.system.pool)
  }

  /** Whatever the options, that can happen. */
  lemma FailureWithNothingLost(o: Options, start: int)
    ensures exists world: World :: world.Serves() && DoneYetFailed(Served(o, start, world))
  {
    CancelledAtOnce(o, start);
    ProcessInv(o, start, AT_ONCE);
    var s := ProcessRun(o, start, AT_ONCE);
    var run := PoolStuck.DoneAnyway(s.pool);
    var done := Exec(s.pool, run);
    var late: nat := if done.now < s.budget.end then s.budget.end - done.now else 0;
    PoolStuck.NobodyOffers(s.pool, run);
    ThenTick(s.pool, run, late);
    DoneTooLate(o, start, run + [Tick(late)]);
    assert Hurried(Events(run + [Tick(late)])).Serves();
  }

  lemma DoneTooLate(o: Options, start: int, run: seq<Action>)
    requires var s := ProcessRun(o, start, AT_ONCE);
             var t := Exec(s.pool, run);
             t.control.done && t.calls == [] && t.now >= s.budget.end
    ensures DoneYetFailed(Served(o, start, Hurried(Events(run))))
  {
    HurriedEnding(o, start, run);
    NothingOffered(o, start, AT_ONCE + Events(run));
  }

  const AT_ONCE: seq<Event> := [PoolEvent(Start), PoolEvent(CancelParent), BudgetEvent]

  /** A world that cancels at once, and lets the timer arm win. */
  function Hurried(waiting: seq<Event>): World {
    World([], [], true, [PoolEvent(CancelParent), BudgetEvent], true, [], [], waiting, OnTimer)
  }

  lemma HurriedEnding(o: Options, start: int, run: seq<Action>)
    ensures var s, e := ProcessRun(o, start, AT_ONCE), Served(o, start, Hurried(Events(run)));
            && e.system == ProcessRun(o, start, AT_ONCE + Events(run)) == s.(pool := Exec(s.pool, run))
            && e.deadline == Some(s.budget.end)
            && e.result == WaitSelect(e.system.pool, s.budget.end, OnTimer) && e.code == CodeOf(e.result)
  {
    var world := Hurried(Events(run));
    CancelledAtOnce(o, start);
    assert Beginning(world) == AT_ONCE && AT_ONCE + [] == AT_ONCE;
    assert UntilDeadline(world) == AT_ONCE;
    assert FoundCancelled(o, start, world);
    PoolGoesOn(o, start, AT_ONCE, run);
  }

  lemma CancelledAtOnce(o: Options, start: int)
    ensures var s := ProcessRun(o, start, AT_ONCE);
            && s.pool.started && s.pool.parentDone && s.pool.calls == [] && s.budget.ready
            && DeadlineOf(s.budget, true, s.pool.now) == Some(s.budget.end)
  {
    var events := AT_ONCE;
    assert events[1..] == [PoolEvent(CancelParent), BudgetEvent];
    assert events[1..][1..] == [BudgetEvent];
    assert events[1..][1..][1..] == [];
  }

  lemma ThenTick(s: State, run: seq<Action>, d: nat)
    requires Shape(s)
    ensures var t := Exec(s, run); Exec(s, run + [Tick(d)]) == t.(now := t.now + d)
  {
    ExecOneMore(s, run, Tick(d));
  }

  lemma NothingOffered(o: Options, start: int, events: seq<Event>)
    requires var s := ProcessRun(o, start, events).pool; s.calls == [] && s.control.done
    ensures var s := ProcessRun(o, start, events).pool; s.control.lost == {} && FullyAccounted(s)
  {
    ProcessInv(o, start, events);
    NothingSent(ProcessRun(o, start, events).pool);
  }

  lemma NothingSent(s: State)
    requires PoolInvariant.Inv(s) && s.calls == [] && s.control.done
    ensures s.control.lost == {} && FullyAccounted(s)
  {
    Sums.DistinctBelow(s.history.sent, 0);
    DoneIsAccountedFor(s);
  }

  /**
    A timely shutdown does not fail for lateness: with a punctual coordinator
    that saw the cancellation soon enough after the budget did, Wait can come
    back with an expired context only when the pool was done before it expired.
  */
  lemma TimelyWait(o: Options, start: int, world: World)
    requires world.Serves() && SeenWithin(o, start, UntilDeadline(world) + world.waiting, Slack(o) - 1)
    requires FoundCancelled(o, start, world)
    ensures var e := Served(o, start, world);
            e.result == Some(ContextExpired) ==>
              var s := e.system;
              s.pool.control.done && s.pool.control.doneAt < s.budget.end <= s.pool.now
  {
    var asked, events := Beginning(world) + world.asking, UntilDeadline(world);
    ExecSystemConcat(InitSystem(o, o.drainTimeout, WORKER_SHUTDOWN_MARGIN, start), asked, world.answering);
    OneDeadline(ProcessRun(o, start, asked), world.answering);
    if ProcessRun(o, start, events).budget.ready {
      ExpiryNeverAlone(o, start, events, world.waiting);
    }
  }

  // ---------- the pool runs ----------

  lemma {:induction false} SystemStaysStarted(s: System, events: seq<Event>)
    requires Shape(s.pool) && s.pool.started
    ensures ExecSystem(s, events).pool.started
    decreases |events|
  {
    if events != [] {
      if events[0].PoolEvent? {
        StaysStarted(s.pool, events[0].action);
      }
      SystemStaysStarted(AdvanceSystem(s, events[0]), events[1..]);
    }
  }

  lemma StartsPool(s: System)
    requires Shape(s.pool)
    ensures var t := ExecSystem(s, [PoolEvent(Start)]); Shape(t.pool) && t.pool.started
  {
    assert [PoolEvent(Start)][1..] == [];
    assert ExecSystem(s, [PoolEvent(Start)]) == AdvanceSystem(s, PoolEvent(Start));
  }

  lemma BootStarts(o: Options, start: int, world: World, more: seq<Event>)
    ensures ProcessRun(o, start, Booted(world) + more).pool.started
  {
    var init := InitSystem(o, o.drainTimeout, WORKER_SHUTDOWN_MARGIN, start);
    ExecSystemConcat(init, Booted(world), more);
    ExecSystemConcat(init, world.opening, [PoolEvent(Start)]);
    StartsPool(ExecSystem(init, world.opening));
    SystemStaysStarted(ExecSystem(init, Booted(world)), more);
  }

  /** Whatever comes before and after, serveAPI has started its pool, also when it cannot listen or serve. */
  lemma PoolIsStarted(o: Options, start: int, world: World)
    ensures Served(o, start, world).system.pool.started
  {
    var serving := if world.listens then world.serving else [];
    var served := world.starting + serving;
    var asked := served + world.asking + world.answering;
    BootStarts(o, start, world, served);
    assert Beginning(world) == Booted(world) + served;
    BootStarts(o, start, world, asked);
    assert UntilDeadline(world) == Booted(world) + asked;
    BootStarts(o, start, world, asked + world.waiting);
    assert UntilDeadline(world) + world.waiting == Booted(world) + (asked + world.waiting);
  }

  /** Everything that happened in a process that served and knew its deadline, in order. */
  lemma EndingSpelled(o: Options, start: int, world: World)
    requires world.Serves() && Served(o, start, world).deadline.Some?
    ensures Served(o, start, world).system
         == ExecSystem(System(Init(Clamp(o), start), Budget(o.drainTimeout, 1_000_000_000, false, 0, 0)),
                       world.opening + [PoolEvent(Start)] + world.starting + world.serving
                       + world.asking + world.answering + world.waiting)
  {
  }

  /** The deadline: counted from the reading of the clock if the parent was found running, else the anchored one. */
  lemma DeadlineMeans(o: Options, start: int, world: World)
    requires world.Serves()
    ensures var e, s := Served(o, start, world), ProcessRun(o, start, UntilDeadline(world));
            e.deadline ==
              if !FoundCancelled(o, start, world) then Some(s.pool.now + o.drainTimeout + 1_000_000_000)
              else if s.budget.ready then Some(s.budget.observedAt + o.drainTimeout + 1_000_000_000)
              else None
  {
    BudgetRun(InitSystem(o, o.drainTimeout, WORKER_SHUTDOWN_MARGIN, start), UntilDeadline(world),
              o.drainTimeout, WORKER_SHUTDOWN_MARGIN);
  }

  /**
    A process that has found the cancellation, and its observer ready, can always
    end well: there is a course of events in which its pool is done and the exit
    code is 0, however it began and however many jobs are stuck.
  */
  lemma CanEndWell(o: Options, start: int, world: World)
    requires world.Serves() && FoundCancelled(o, start, world)
    requires ProcessRun(o, start, UntilDeadline(world)).budget.ready
    ensures exists waiting ::
              var e := Served(o, start, world.(waiting := waiting, arm := OnChannel));
              e.system.pool.control.done && e.code == Some(0)
  {
    var until := UntilDeadline(world);
    var s := ProcessRun(o, start, until);
    StillCancelled(o, start, world);
    ProcessInv(o, start, until);
    PoolIsStarted(o, start, world.(waiting := []));
    assert until + [] == until;
    var run := PoolStuck.DoneAnyway(s.pool);
    PoolGoesOn(o, start, until, run);
    var ending := world.(waiting := Events(run), arm := OnChannel);
    assert UntilDeadline(ending) == until && FoundCancelled(o, start, ending);
    assert Served(o, start, ending).system.pool.control.done;
  }

  lemma StillCancelled(o: Options, start: int, world: World)
    requires FoundCancelled(o, start, world)
    ensures ProcessRun(o, start, UntilDeadline(world)).pool.parentDone
  {
    var asked := Beginning(world) + world.asking;
    ExecSystemConcat(InitSystem(o, o.drainTimeout, WORKER_SHUTDOWN_MARGIN, start), asked, world.answering);
    OneDeadline(ProcessRun(o, start, asked), world.answering);
  }

  // ---------- serveAPI ----------

  /** The pool and the budget of one process. */
  method Make(o: Options, start: int) returns (pool: Pool, budget: ShutdownBudget)
    ensures fresh(pool) && fresh(pool.metrics) && fresh(budget)
    ensures pool.Valid()
    ensures View(pool, budget) == InitSystem(o, o.drainTimeout, WORKER_SHUTDOWN_MARGIN, start)
  {
    budget := new ShutdownBudget(o.drainTimeout, WORKER_SHUTDOWN_MARGIN);
    pool := new Pool(o, start);
  }

  /** Listen, then serve. */
  method Serve(pool: Pool, budget: ShutdownBudget, world: World, ghost o: Options, ghost start: int)
    returns (served: bool)
    requires pool.Valid() && View(pool, budget) == ProcessRun(o, start, Booted(world))
    modifies pool, pool.metrics, budget
    ensures pool.Valid() && View(pool, budget) == ProcessRun(o, start, Beginning(world))
    ensures served <==> world.Serves()
  {
    Continue(pool, budget, world.starting, o, start, Booted(world));
    if world.listens {
      Continue(pool, budget, world.serving, o, start, Booted(world) + world.starting);
    } else {
      assert Booted(world) + world.starting + [] == Booted(world) + world.starting;
    }
    served := world.listens && world.servesCleanly;
  }

  /** The deadline from the budget; None while it waits for the observer. */
  method AwaitDeadline(pool: Pool, budget: ShutdownBudget, world: World, ghost o: Options, ghost start: int)
    returns (deadline: Option<int>)
    requires pool.Valid() && View(pool, budget) == ProcessRun(o, start, Beginning(world))
    modifies pool, pool.metrics, budget
    ensures pool.Valid() && View(pool, budget) == ProcessRun(o, start, UntilDeadline(world))
    ensures deadline == DeadlineAt(o, start, world)
  {
    Continue(pool, budget, world.asking, o, start, Beginning(world));
    var cancelled := pool.parentDone;
    Continue(pool, budget, world.answering, o, start, Beginning(world) + world.asking);
    deadline := budget.Deadline(cancelled, pool.now);
  }

  /** The deadline, then Wait, and the exit code; None while one of the two still blocks. */
  method AwaitPool(pool: Pool, budget: ShutdownBudget, world: World, ghost o: Options, ghost start: int)
    returns (code: Option<int>, result: Option<WaitResult>)
    requires world.Serves()
    requires pool.Valid() && View(pool, budget) == ProcessRun(o, start, Beginning(world))
    modifies pool, pool.metrics, budget
    ensures pool.Valid()
    ensures var e := Served(o, start, world);
            View(pool, budget) == e.system && result == e.result && code == e.code
  {
    var deadline := AwaitDeadline(pool, budget, world, o, start);
    if deadline.None? {
      return None, None;
    }
    Continue(pool, budget, world.waiting, o, start, UntilDeadline(world));
    result := pool.Wait(deadline.value, world.arm);
    code := CodeOf(result);
  }

  /** serveAPI, after an opening in which the cancellation may already come. */
  method ServeAPI(o: Options, start: int, world: World)
    returns (code: Option<int>, pool: Pool, budget: ShutdownBudget, result: Option<WaitResult>)
    ensures pool.Valid()
    ensures var e := Served(o, start, world);
            View(pool, budget) == e.system && result == e.result && code == e.code
  {
    pool, budget := Make(o, start);
    RunEvents(pool, budget, Booted(world));
    var served := Serve(pool, budget, world, o, start);
    if !served {
      return Some(1), pool, budget, None;
    }
    code, result := AwaitPool(pool, budget, world, o, start);
  }
}
