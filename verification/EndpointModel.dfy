/**
  One mock endpoint: a worker that is cold, warming or warm, and whose
  transitions are resolved only when somebody looks. Times are integers, in
  nanoseconds since the zero time of the clock.
*/
module EndpointModel {
  import Basics

  datatype WorkerState = Cold | Warming | Warm

  /** How long warming lasts. */
  const COLD_START_DURATION: int := 8 * Basics.SECOND
  /** How long a warm worker lives without an invoke. */
  const IDLE_TIMEOUT: int := 5 * 60 * Basics.SECOND

  datatype FailureMode = NoFailure | RateLimited | ServerError

  datatype Scenario = Scenario(latencyMs: int, failure: FailureMode, failureUntil: int)

  const DEFAULT_SCENARIO: Scenario := Scenario(0, NoFailure, 0)

  datatype Endpoint = Endpoint(
    id: string,
    worker: WorkerState,
    workerCount: int,
    workersMin: int,
    lastTransitionAt: int,
    lastInvokeAt: int,
    scenario: Scenario)

  function New(id: string, now: int): Endpoint {
    Endpoint(id, Cold, 0, 0, now, 0, DEFAULT_SCENARIO)
  }

  // ---------- transitions ----------

  /** Is a transition due at `now`? */
  predicate Due(e: Endpoint, now: int) {
    match e.worker
    case Cold => false
    case Warming => now >= e.lastTransitionAt + COLD_START_DURATION
    case Warm => e.workersMin <= 0 && now >= e.lastInvokeAt + IDLE_TIMEOUT
  }

  /** The one transition that is due, dated to the moment it fell due. */
  function Fire(e: Endpoint): Endpoint {
    match e.worker
    case Cold => e
    case Warming => e.(worker := Warm, workerCount := 1, lastTransitionAt := e.lastTransitionAt + COLD_START_DURATION)
    case Warm => e.(worker := Cold, workerCount := 0, lastTransitionAt := e.lastInvokeAt + IDLE_TIMEOUT)
  }

  /** Transitions that can still follow: the loop in `advance` is bounded by it. */
  function Rank(w: WorkerState): nat {
    match w
    case Cold => 0
    case Warm => 1
    case Warming => 2
  }

  /** Every transition due at `now`. */
  function Advance(e: Endpoint, now: int): (r: Endpoint)
    ensures !Due(r, now)
    ensures r.id == e.id && r.workersMin == e.workersMin && r.lastInvokeAt == e.lastInvokeAt && r.scenario == e.scenario
    ensures Rank(r.worker) <= Rank(e.worker)
    decreases Rank(e.worker)
  {
    if Due(e, now) then Advance(Fire(e), now) else e
  }

  function Invoke(e: Endpoint, now: int): Endpoint {
    var a := Advance(e, now);
    if a.worker.Cold? then a.(worker := Warming, lastTransitionAt := now, lastInvokeAt := now)
    else a.(lastInvokeAt := now)
  }

  // ---------- advance as an action of time ----------

  function Max(a: int, b: int): int {
    if a < b then b else a
  }

  /**
    Looking at two times, in either order, is looking at the later one. Nothing is
    assumed of the endpoint.
  */
  lemma AdvanceTwice(e: Endpoint, t1: int, t2: int)
    ensures Advance(Advance(e, t1), t2) == Advance(e, Max(t1, t2))
    decreases Rank(e.worker)
  {
    if Due(e, t1) {
      AdvanceTwice(Fire(e), t1, t2);
    }
  }

  function AdvanceAll(e: Endpoint, times: seq<int>): Endpoint
    decreases |times|
  {
    if times == [] then e else AdvanceAll(Advance(e, times[0]), times[1..])
  }

  function Latest(times: seq<int>): int
    requires times != []
  {
    if |times| == 1 then times[0] else Max(times[0], Latest(times[1..]))
  }

  /** Any number of looks, in any order, equal one look at the latest time. */
  lemma {:induction false} LooksCollapse(e: Endpoint, times: seq<int>)
    requires times != []
    ensures AdvanceAll(e, times) == Advance(e, Latest(times))
    decreases |times|
  {
    if |times| == 1 {
      assert times[1..] == [];
    } else {
      LooksCollapse(Advance(e, times[0]), times[1..]);
      AdvanceTwice(e, times[0], Latest(times[1..]));
    }
  }

  // ---------- looks that come too late ----------

  /** From `now` on the two cannot be told apart by looking, nor by what a later call makes of them. */
  ghost predicate SameFrom(e: Endpoint, f: Endpoint, now: int) {
    forall x | x >= now :: Advance(e, x) == Advance(f, x)
  }

  /** May somebody have looked as late as `t` at an endpoint that is used again from `now` on? */
  predicate Unnoticed(e: Endpoint, t: int, now: int) {
    t <= now || !Due(Advance(e, now), t)
  }

  lemma DueFires(e: Endpoint, now: int)
    requires Due(e, now)
    ensures Rank(Advance(e, now).worker) < Rank(e.worker)
  {
  }

  /**
    Exactly when a look is transparent, for any endpoint and any two times: it
    changes nothing from `now` on if and only if it was not ahead of `now`, or
    no transition was due by then that is not due at `now`.
  */
  lemma LookIsUnnoticed(e: Endpoint, t: int, now: int)
    ensures SameFrom(Advance(e, t), e, now) <==> Unnoticed(e, t, now)
  {
    var a := Advance(e, now);
    AdvanceTwice(e, now, Max(t, now));
    if t > now && Due(a, t) {
      AdvanceTwice(e, t, now);
      DueFires(a, t);
      assert Advance(Advance(e, t), now) != Advance(e, now);
    } else {
      forall x | x >= now ensures Advance(Advance(e, t), x) == Advance(e, x) {
        AdvanceTwice(e, t, x);
        AdvanceTwice(e, now, x);
        AdvanceTwice(e, now, Max(t, x));
        if t > now {
          assert Advance(e, t) == a;
        }
      }
    }
  }

  // ---------- the tick-by-tick simulator ----------

  /** A simulator that looks at every instant and makes at most one transition at each. */
  function Simulate(e: Endpoint, from: int, now: int): Endpoint
    decreases if from < now then now - from else 0
  {
    if from >= now then e
    else Simulate(if Due(e, from + 1) then Fire(e) else e, from + 1, now)
  }

  /** The two transitions ahead of a warming endpoint do not fall on one instant, nor in the wrong order. */
  predicate Apart(e: Endpoint) {
    e.worker.Warming? && e.workersMin <= 0 ==>
      e.lastTransitionAt + COLD_START_DURATION < e.lastInvokeAt + IDLE_TIMEOUT
  }

  /** One jump equals simulating every tick, so no transition is missed or misdated. */
  lemma {:induction false} JumpIsSimulation(e: Endpoint, from: int, now: int)
    requires from <= now && Apart(e) && !Due(e, from)
    ensures Advance(e, now) == Simulate(e, from, now)
    decreases now - from
  {
    if from < now {
      var next := from + 1;
      AdvanceTwice(e, next, now);
      assert Advance(e, next) == if Due(e, next) then Fire(e) else e;
      JumpIsSimulation(Advance(e, next), next, now);
    }
  }

  /** That is the exact condition: otherwise the two disagree at the end of the cold start. */
  lemma JumpIsSimulationExactly(e: Endpoint, from: int)
    requires !Due(e, from)
    ensures Apart(e) <==> forall now | from <= now :: Advance(e, now) == Simulate(e, from, now)
  {
    if Apart(e) {
      forall now | from <= now ensures Advance(e, now) == Simulate(e, from, now) {
        JumpIsSimulation(e, from, now);
      }
    } else {
      var warmedAt := e.lastTransitionAt + COLD_START_DURATION;
      WarmsOnTime(e, from, warmedAt);
      assert Due(e, warmedAt) && Due(Fire(e), warmedAt);
      assert Rank(Advance(e, warmedAt).worker) <= Rank(Fire(Fire(e)).worker);
      assert Advance(e, warmedAt) != Simulate(e, from, warmedAt);
    }
  }

  lemma {:induction false} WarmsOnTime(e: Endpoint, from: int, warmedAt: int)
    requires e.worker.Warming? && from < warmedAt == e.lastTransitionAt + COLD_START_DURATION
    ensures Simulate(e, from, warmedAt) == Fire(e)
    decreases warmedAt - from
  {
    if from + 1 < warmedAt {
      WarmsOnTime(e, from + 1, warmedAt);
    } else {
      assert Simulate(Fire(e), warmedAt, warmedAt) == Fire(e);
    }
  }

  /**
    What a look at `now` finds, for any endpoint: warming ends after 8 s, and a
    warm worker without a minimum is gone 5 minutes after the last invoke. Each
    transition is dated to the moment it fell due, and both may be due at once.
  */
  lemma AdvanceSpelled(e: Endpoint, now: int)
    ensures var warmAt, idleAt := e.lastTransitionAt + 8_000_000_000, e.lastInvokeAt + 300_000_000_000;
            var warmed := e.worker.Warm? || (e.worker.Warming? && now >= warmAt);
            Advance(e, now) ==
              if warmed && e.workersMin <= 0 && now >= idleAt then
                e.(worker := Cold, workerCount := 0, lastTransitionAt := idleAt)
              else if warmed && e.worker.Warming? then
                e.(worker := Warm, workerCount := 1, lastTransitionAt := warmAt)
              else e
    decreases Rank(e.worker)
  {
    if Due(e, now) {
      AdvanceSpelled(Fire(e), now);
    }
  }

  /** With a minimum of workers a warm endpoint never goes cold. */
  lemma MinimumKeepsWarm(e: Endpoint, now: int)
    requires e.workersMin > 0 && !e.worker.Cold?
    ensures !Advance(e, now).worker.Cold?
    ensures e.worker.Warm? ==> Advance(e, now) == e
  {
  }
}
