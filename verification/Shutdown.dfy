/**
  The shutdown budget: one deadline for the whole process, anchored to the
  moment an observer goroutine sees the cancellation; and the pool and the
  budget running side by side.
*/
module Shutdown {
  import opened Basics
  import opened PoolModel
  import PoolInvariant
  import PoolTiming
  import PoolStuck

  /** Added to the drain timeout for the bookkeeping after it. */
  const WORKER_SHUTDOWN_MARGIN: int := SECOND

  datatype Budget = Budget(timeout: int, margin: int, ready: bool, end: int, observedAt: int)

  /** The observer goroutine: it writes `end` once, then closes `ready`. */
  function Observe(b: Budget, now: int): Budget {
    if b.ready then b else b.(ready := true, end := now + b.timeout + b.margin, observedAt := now)
  }

  /** deadline, from the parent context as it was read first; None while it waits for the observer. */
  function DeadlineOf(b: Budget, parentDone: bool, now: int): Option<int> {
    if !parentDone then Some(now + b.timeout + b.margin)
    else if b.ready then Some(b.end) else None
  }

  // ---------- the object ----------

  class ShutdownBudget {
    const timeout: int
    const margin: int
    var ready: bool
    var end: int
    ghost var observedAt: int

    ghost function View(): Budget
      reads this
    {
      Budget(timeout, margin, ready, end, observedAt)
    }

    constructor (timeout: int, margin: int)
      ensures View() == Budget(timeout, margin, false, 0, 0)
    {
      this.timeout, this.margin := timeout, margin;
      ready, end, observedAt := false, 0, 0;
    }

    /** The body of the observer goroutine, which runs once. */
    method ObserveCancellation(now: int)
      modifies this
      ensures View() == Observe(old(View()), now)
      ensures ready && end == if old(ready) then old(end) else now + timeout + margin
    {
      if !ready {
        end := now + (timeout + margin);
        observedAt := now;
        ready := true;
      }
    }

    method Deadline(parentDone: bool, now: int) returns (d: Option<int>)
      ensures d == DeadlineOf(View(), parentDone, now)
      ensures !parentDone ==> d == Some(now + timeout + margin)
      ensures parentDone ==> d == if ready then Some(end) else None
    {
      if !parentDone {
        return Some(now + (timeout + margin));
      }
      return if ready then Some(end) else None;
    }
  }

  // ---------- pool and budget together ----------

  datatype System = System(pool: State, budget: Budget)

  datatype Event = PoolEvent(action: Action) | BudgetEvent

  function InitSystem(o: Options, timeout: int, margin: int, now: int): System {
    System(Init(Clamp(o), now), Budget(timeout, margin, false, 0, 0))
  }

  function AdvanceSystem(s: System, e: Event): (t: System)
    requires Shape(s.pool)
    ensures Shape(t.pool)
  {
    match e
    case PoolEvent(a) => s.(pool := Advance(s.pool, a))
    case BudgetEvent => if s.pool.parentDone then s.(budget := Observe(s.budget, s.pool.now)) else s
  }

  function ExecSystem(s: System, events: seq<Event>): (t: System)
    requires Shape(s.pool)
    ensures Shape(t.pool)
    decreases |events|
  {
    if events == [] then s else ExecSystem(AdvanceSystem(s, events[0]), events[1..])
  }

  /** The part of a system schedule that the pool sees. */
  function PoolPart(events: seq<Event>): seq<Action> {
    if events == [] then []
    else if events[0].PoolEvent? then [events[0].action] + PoolPart(events[1..])
    else PoolPart(events[1..])
  }

  /** The budget never influences the pool. */
  lemma {:induction false} PoolIsIndependent(s: System, events: seq<Event>)
    requires Shape(s.pool)
    ensures ExecSystem(s, events).pool == Exec(s.pool, PoolPart(events))
    decreases |events|
  {
    if events != [] {
      PoolIsIndependent(AdvanceSystem(s, events[0]), events[1..]);
      if events[0].PoolEvent? {
        assert PoolPart(events)[0] == events[0].action;
        assert PoolPart(events)[1..] == PoolPart(events[1..]);
      }
    }
  }

  /** The deadline is one value: whoever asks after the cancellation, however late, gets the anchored one. */
  lemma {:induction false} OneDeadline(s: System, events: seq<Event>)
    requires Shape(s.pool) && s.pool.parentDone
    ensures var t := ExecSystem(s, events);
            && t.pool.parentDone
            && (s.budget.ready ==> t.budget == s.budget)
            && (t.budget.ready ==> DeadlineOf(t.budget, true, t.pool.now) == Some(t.budget.end))
            && (t.budget.ready && !s.budget.ready ==>
                  t.budget.end == t.budget.observedAt + s.budget.timeout + s.budget.margin
                  && s.pool.now <= t.budget.observedAt <= t.pool.now)
            && s.pool.now <= t.pool.now
    decreases |events|
  {
    if events != [] {
      if events[0].PoolEvent? {
        AdvanceClock(s.pool, events[0].action);
      }
      OneDeadline(AdvanceSystem(s, events[0]), events[1..]);
    }
  }

  /** The budget of a run that began before the cancellation. */
  ghost predicate BudgetInv(s: System, timeout: int, margin: int) {
    && s.budget.timeout == timeout && s.budget.margin == margin
    && (s.budget.ready ==> s.pool.parentDone && s.budget.end == s.budget.observedAt + timeout + margin)
  }

  lemma {:induction false} BudgetRun(s: System, events: seq<Event>, timeout: int, margin: int)
    requires Shape(s.pool) && BudgetInv(s, timeout, margin)
    ensures BudgetInv(ExecSystem(s, events), timeout, margin)
    decreases |events|
  {
    if events != [] {
      if events[0].PoolEvent? {
        AdvanceClock(s.pool, events[0].action);
      }
      BudgetRun(AdvanceSystem(s, events[0]), events[1..], timeout, margin);
    }
  }

  /**
    How much later than the budget the pool may see the cancellation: the margin
    less the unwind window, for every drain timeout that the pool does not replace.
  */
  function Slack(o: Options): (r: int)
    ensures o.drainTimeout > 0 ==> r == 900_000_000
  {
    o.drainTimeout + WORKER_SHUTDOWN_MARGIN - PoolTiming.ShutdownTime(Clamp(o))
  }

  /** The process up to now: the pool and a budget with the pool's own timeout. */
  function ProcessRun(o: Options, now: int, events: seq<Event>): (s: System)
    ensures Shape(s.pool)
  {
    ExecSystem(InitSystem(o, o.drainTimeout, WORKER_SHUTDOWN_MARGIN, now), events)
  }

  /** A punctual run in which both have seen the cancellation, the pool `gap` later than the budget. */
  ghost predicate SeenWithin(o: Options, now: int, events: seq<Event>, gap: int) {
    var s := ProcessRun(o, now, events);
    && PoolTiming.Punctual(Init(Clamp(o), now), PoolPart(events))
    && s.budget.ready && s.pool.control.coordinator.Stage() >= 2
    && s.pool.control.observedAt - s.budget.observedAt <= gap
  }

  /**
    The timed guarantee of a shutdown. When the pool saw the cancellation soon
    enough after the budget did, and the coordinator is punctual, the pool is done
    by the anchored deadline, however many jobs and hooks are stuck; and before
    it, when it was strictly sooner.
  */
  lemma DoneByDeadline(o: Options, now: int, events: seq<Event>)
    requires SeenWithin(o, now, events, Slack(o))
    ensures var s := ProcessRun(o, now, events);
            var c := s.pool.control;
            && (s.pool.now > s.budget.end ==> c.done)
            && (c.done ==> c.doneAt <= s.budget.end)
            && (SeenWithin(o, now, events, Slack(o) - 1) ==>
                  (s.pool.now >= s.budget.end ==> c.done) && (c.done ==> c.doneAt < s.budget.end))
  {
    var s := InitSystem(o, o.drainTimeout, WORKER_SHUTDOWN_MARGIN, now);
    PoolIsIndependent(s, events);
    BudgetRun(s, events, o.drainTimeout, WORKER_SHUTDOWN_MARGIN);
    PoolTiming.ShutdownBound(o, now, PoolPart(events));
    OptionsKept(s.pool, PoolPart(events));
  }

  function Events(run: seq<Action>): seq<Event> {
    if run == [] then [] else [PoolEvent(run[0])] + Events(run[1..])
  }

  lemma {:induction false} PoolPartOfEvents(before: seq<Event>, run: seq<Action>)
    ensures PoolPart(before + Events(run)) == PoolPart(before) + run
    decreases |before|, |run|
  {
    if before != [] {
      assert (before + Events(run))[1..] == before[1..] + Events(run);
      PoolPartOfEvents(before[1..], run);
    } else if run != [] {
      assert [] + Events(run) == Events(run);
      assert Events(run)[1..] == [] + Events(run[1..]);
      PoolPartOfEvents([], run[1..]);
    }
  }

  /** The pool alone goes on, for `run`. */
  lemma PoolGoesOn(o: Options, now: int, before: seq<Event>, run: seq<Action>)
    requires ProcessRun(o, now, before).budget.ready
    ensures ProcessRun(o, now, before + Events(run))
         == ProcessRun(o, now, before).(pool := Exec(ProcessRun(o, now, before).pool, run))
  {
    var init, s := InitSystem(o, o.drainTimeout, WORKER_SHUTDOWN_MARGIN, now), ProcessRun(o, now, before);
    ExecSystemConcat(init, before, Events(run));
    PoolPartOfEvents([], run);
    assert [] + Events(run) == Events(run);
    PoolIsIndependent(s, Events(run));
    BudgetRun(init, before, o.drainTimeout, WORKER_SHUTDOWN_MARGIN);
    OneDeadline(s, Events(run));
    assert PoolPart(Events(run)) == [] + run == run;
  }

  /**
    And the deadline is met: under the same assumptions every run can be continued,
    punctually and without the return of any body or hook, until the pool is done,
    which then happened by the deadline.
  */
  lemma DeadlineIsMet(o: Options, now: int, before: seq<Event>)
    requires SeenWithin(o, now, before, Slack(o))
    ensures exists after :: DoneInDeadline(o, now, before, after)
  {
    var init, s := InitSystem(o, o.drainTimeout, WORKER_SHUTDOWN_MARGIN, now), ProcessRun(o, now, before);
    PoolIsIndependent(init, before);
    PoolInvariant.RunInv(o, now, PoolPart(before));
    var after := PoolStuck.DoneAnyway(s.pool);
    PoolGoesOn(o, now, before, after);
    PoolPartOfEvents(before, after);
    PoolTiming.PunctualConcat(init.pool, PoolPart(before), after);
    PoolTiming.ObservedOnce(s.pool, after);
    DoneByDeadline(o, now, before + Events(after));
    assert DoneInDeadline(o, now, before, after);
  }

  ghost predicate DoneInDeadline(o: Options, now: int, before: seq<Event>, after: seq<Action>) {
    var t := ProcessRun(o, now, before + Events(after));
    && PoolStuck.Unaided(ProcessRun(o, now, before).pool, after)
    && PoolTiming.Punctual(Init(Clamp(o), now), PoolPart(before + Events(after)))
    && t.budget == ProcessRun(o, now, before).budget
    && t.pool.control.done && t.pool.control.doneAt <= t.budget.end
  }

  lemma {:induction false} ExecSystemConcat(s: System, before: seq<Event>, after: seq<Event>)
    requires Shape(s.pool)
    ensures ExecSystem(s, before + after) == ExecSystem(ExecSystem(s, before), after)
    decreases |before|
  {
    if before == [] {
      assert before + after == after;
    } else {
      assert (before + after)[1..] == before[1..] + after;
      ExecSystemConcat(AdvanceSystem(s, before[0]), before[1..], after);
    }
  }

  /**
    A caller that asks for its deadline after the cancellation never finds the
    deadline expired while the pool is still draining: under the same
    assumptions, taken strictly, the pool was done before it.
  */
  lemma ExpiryNeverAlone(o: Options, now: int, before: seq<Event>, after: seq<Event>)
    requires SeenWithin(o, now, before + after, Slack(o) - 1)
    requires var asked := ProcessRun(o, now, before); asked.pool.parentDone && asked.budget.ready
    ensures var asked, s := ProcessRun(o, now, before), ProcessRun(o, now, before + after);
            var deadline := DeadlineOf(asked.budget, asked.pool.parentDone, asked.pool.now);
            && deadline == Some(asked.budget.observedAt + o.drainTimeout + 1_000_000_000)
            && deadline == Some(s.budget.end)
            && (s.pool.now >= deadline.value ==> s.pool.control.done && s.pool.control.doneAt < deadline.value)
  {
    var init, asked := InitSystem(o, o.drainTimeout, WORKER_SHUTDOWN_MARGIN, now), ProcessRun(o, now, before);
    ExecSystemConcat(init, before, after);
    OneDeadline(asked, after);
    BudgetRun(init, before, o.drainTimeout, WORKER_SHUTDOWN_MARGIN);
    DoneByDeadline(o, now, before + after);
  }
}
