/**
  What a history of calls does to one endpoint, and the closed form of it: the
  state at any time is a function of the invoke times alone.
*/
module EndpointHistory {
  import opened Basics
  import opened EndpointModel

  /** The calls a store takes for one endpoint. */
  datatype Op =
    | InvokeAt(now: int)
    | StatusAt(now: int)
    | GetAt(now: int)
    | SetScenarioAt(scenario: Scenario, now: int)

  /** getOrCreateLocked. */
  function Touch(id: string, e: Option<Endpoint>, now: int): Endpoint {
    if e.Some? then e.value else New(id, now)
  }

  function Apply(id: string, e: Option<Endpoint>, op: Op): Endpoint {
    var t := Touch(id, e, op.now);
    match op
    case InvokeAt(now) => Invoke(t, now)
    case StatusAt(now) => Advance(t, now)
    case GetAt(_) => t
    case SetScenarioAt(scenario, _) => t.(scenario := scenario)
  }

  /** The endpoint after a history; None before the first call. */
  function Run(id: string, ops: seq<Op>): Option<Endpoint>
    decreases |ops|
  {
    if ops == [] then None else Some(Apply(id, Run(id, ops[..|ops| - 1]), ops[|ops| - 1]))
  }

  /** What a call of Status at `now` would return. */
  function Look(id: string, ops: seq<Op>, now: int): Endpoint {
    Advance(Touch(id, Run(id, ops), now), now)
  }

  ghost predicate InOrder(ops: seq<Op>) {
    forall i, j | 0 <= i < j < |ops| :: ops[i].now <= ops[j].now
  }

  ghost predicate NotBefore(ops: seq<Op>, now: int) {
    forall i | 0 <= i < |ops| :: ops[i].now <= now
  }

  // ---------- the closed form ----------

  function Invokes(ops: seq<Op>): seq<int>
    decreases |ops|
  {
    if ops == [] then []
    else
      var last := ops[|ops| - 1];
      Invokes(ops[..|ops| - 1]) + if last.InvokeAt? then [last.now] else []
  }

  function LastScenario(ops: seq<Op>): Scenario
    decreases |ops|
  {
    if ops == [] then DEFAULT_SCENARIO
    else if ops[|ops| - 1].SetScenarioAt? then ops[|ops| - 1].scenario
    else LastScenario(ops[..|ops| - 1])
  }

  /** The time of the call that creates the endpoint; at the latest the one at `now`. */
  function Created(ops: seq<Op>, now: int): int {
    if ops == [] then now else ops[0].now
  }

  /** The scenario is the last one that was set, or the default one, which never fails. */
  lemma {:induction false} LastScenarioIs(ops: seq<Op>, k: nat)
    requires forall i | k < i < |ops| :: !ops[i].SetScenarioAt?
    ensures k < |ops| && ops[k].SetScenarioAt? ==> LastScenario(ops) == ops[k].scenario
    ensures k == 0 && (ops == [] || !ops[0].SetScenarioAt?) ==> LastScenario(ops) == Scenario(0, NoFailure, 0)
    decreases |ops|
  {
    if ops != [] && !ops[|ops| - 1].SetScenarioAt? {
      LastScenarioIs(ops[..|ops| - 1], k);
    }
  }

  /** The first index of the last burst: the maximal suffix of invokes with gaps below the idle timeout. */
  function BurstStart(h: seq<int>): (k: nat)
    requires h != []
    ensures k < |h|
    decreases |h|
  {
    var n := |h| - 1;
    if n == 0 then 0
    else if h[n] - h[n - 1] < IDLE_TIMEOUT then BurstStart(h[..n])
    else n
  }

  ghost predicate IsBurstStart(h: seq<int>, k: nat) {
    && k < |h|
    && (k > 0 ==> h[k] - h[k - 1] >= 300_000_000_000)
    && forall i | k < i < |h| :: h[i] - h[i - 1] < 300_000_000_000
  }

  /** The burst start is the one index with that description. */
  lemma {:induction false} BurstStartUnique(h: seq<int>, k: nat)
    requires h != []
    ensures IsBurstStart(h, k) <==> k == BurstStart(h)
    decreases |h|
  {
    var n := |h| - 1;
    if n > 0 {
      BurstStartUnique(h[..n], k);
      BurstStartUnique(h[..n], BurstStart(h[..n]));
    }
  }

  /** The whole state at `now`, from the invoke times; `created` is the first call of any kind. */
  function ClosedForm(id: string, created: int, h: seq<int>, scenario: Scenario, now: int): Endpoint {
    if h == [] then Endpoint(id, Cold, 0, 0, created, 0, scenario)
    else
      var last, start := h[|h| - 1], h[BurstStart(h)];
      if now >= last + IDLE_TIMEOUT then Endpoint(id, Cold, 0, 0, last + IDLE_TIMEOUT, last, scenario)
      else if now < start + COLD_START_DURATION then Endpoint(id, Warming, 0, 0, start, last, scenario)
      else Endpoint(id, Warm, 1, 0, start + COLD_START_DURATION, last, scenario)
  }

  /** The scenario plays no part in the transitions. */
  lemma ScenarioIsInert(e: Endpoint, scenario: Scenario, now: int)
    ensures Advance(e.(scenario := scenario), now) == Advance(e, now).(scenario := scenario)
    decreases Rank(e.worker)
  {
    if Due(e, now) {
      ScenarioIsInert(Fire(e), scenario, now);
    }
  }

  /** Invoke times come in order and not after the calls they belong to. */
  lemma {:induction false} InvokesInOrder(ops: seq<Op>, now: int)
    requires InOrder(ops) && NotBefore(ops, now)
    ensures forall i, j | 0 <= i <= j < |Invokes(ops)| :: Invokes(ops)[i] <= Invokes(ops)[j] <= now
    decreases |ops|
  {
    if ops != [] {
      InvokesInOrder(ops[..|ops| - 1], ops[|ops| - 1].now);
    }
  }

  /** `Advance` makes at most two transitions. */
  lemma AdvanceCases(e: Endpoint, now: int)
    ensures e.worker.Cold? ==> Advance(e, now) == e
    ensures e.worker.Warm? ==> Advance(e, now) == if Due(e, now) then Fire(e) else e
    ensures e.worker.Warming? ==>
              Advance(e, now) == if !Due(e, now) then e else if Due(Fire(e), now) then Fire(Fire(e)) else Fire(e)
    decreases Rank(e.worker)
  {
    if Due(e, now) && e.worker.Warming? {
      AdvanceCases(Fire(e), now);
    }
  }

  /** One more invoke, on the closed form. */
  lemma InvokeExtends(id: string, created: int, h: seq<int>, scenario: Scenario, t: int, now: int)
    requires forall i, j | 0 <= i <= j < |h| :: h[i] <= h[j] <= t
    requires t <= now
    ensures Advance(Invoke(ClosedForm(id, created, h, scenario, t), t), now)
         == ClosedForm(id, created, h + [t], scenario, now)
  {
    var h' := h + [t];
    assert h'[..|h|] == h;
    var e := ClosedForm(id, created, h, scenario, t);
    AdvanceCases(e, t);
    AdvanceCases(Invoke(e, t), now);
    if h != [] {
      var k := BurstStart(h);
      assert h'[k] == h[k] <= h'[|h| - 1] == h[|h| - 1];
    }
  }

  /**
    The closed form is the state: whatever calls were made, in time order, the
    endpoint seen at `now` is the function of the invoke times above.
  */
  lemma {:induction false} ClosedFormHolds(id: string, ops: seq<Op>, now: int)
    requires InOrder(ops) && NotBefore(ops, now)
    ensures Look(id, ops, now)
         == ClosedForm(id, Created(ops, now), Invokes(ops), LastScenario(ops), now)
    decreases |ops|
  {
    if ops != [] {
      var n := |ops| - 1;
      var before, op := ops[..n], ops[n];
      var t := op.now;
      var created := Created(before, t);
      ClosedFormHolds(id, before, t);
      InvokesInOrder(before, t);
      var e := Touch(id, Run(id, before), t);
      assert Advance(e, t) == ClosedForm(id, created, Invokes(before), LastScenario(before), t);
      ApplyOnClosedForm(id, Run(id, before), op, created, Invokes(before), LastScenario(before), now);
    }
  }

  /** One more call, on an endpoint that looks like the closed form. */
  lemma ApplyOnClosedForm(id: string, was: Option<Endpoint>, op: Op,
                          created: int, h: seq<int>, scenario: Scenario, now: int)
    requires op.now <= now
    requires forall i, j | 0 <= i <= j < |h| :: h[i] <= h[j] <= op.now
    requires Advance(Touch(id, was, op.now), op.now) == ClosedForm(id, created, h, scenario, op.now)
    ensures Advance(Apply(id, was, op), now)
         == ClosedForm(id, created, h + (if op.InvokeAt? then [op.now] else []),
                       if op.SetScenarioAt? then op.scenario else scenario, now)
  {
    var t := op.now;
    var e := Touch(id, was, t);
    assert h + [] == h;
    AdvanceTwice(e, t, now);
    if op.InvokeAt? {
      AdvanceIdempotent(e, t);
      InvokeExtends(id, created, h, scenario, t, now);
    } else {
      ClosedFormAdvances(id, created, h, scenario, t, now);
      if op.SetScenarioAt? {
        ScenarioIsInert(e, op.scenario, now);
      }
    }
  }

  lemma AdvanceIdempotent(e: Endpoint, now: int)
    ensures Advance(Advance(e, now), now) == Advance(e, now)
    ensures Invoke(Advance(e, now), now) == Invoke(e, now)
  {
    AdvanceTwice(e, now, now);
  }

  /** Without new invokes, the closed form moves as the endpoint does. */
  lemma ClosedFormAdvances(id: string, created: int, h: seq<int>, scenario: Scenario, t: int, now: int)
    requires forall i, j | 0 <= i <= j < |h| :: h[i] <= h[j] <= t
    requires t <= now
    ensures Advance(ClosedForm(id, created, h, scenario, t), now) == ClosedForm(id, created, h, scenario, now)
  {
    AdvanceCases(ClosedForm(id, created, h, scenario, t), now);
  }

  // ---------- consequences ----------

  /** What handleInvoke reports for an invoke at `now` after a history. */
  predicate WasCold(id: string, ops: seq<Op>, now: int) {
    !Invoke(Touch(id, Run(id, ops), now), now).worker.Warm?
  }

  /** An invoke is warm exactly when the last burst is alive, for 5 minutes, and at least 8 s old. */
  lemma WarmExactlyWhen(id: string, ops: seq<Op>, now: int)
    requires InOrder(ops) && NotBefore(ops, now)
    ensures var h := Invokes(ops);
            !WasCold(id, ops, now) <==>
              h != [] && now < h[|h| - 1] + 300_000_000_000 && h[BurstStart(h)] + 8_000_000_000 <= now
  {
    ClosedFormHolds(id, ops, now);
  }

  /** The fields that describe the worker. */
  ghost predicate SameWorker(a: Endpoint, b: Endpoint) {
    && a.worker == b.worker && a.workerCount == b.workerCount
    && a.workersMin == b.workersMin && a.lastInvokeAt == b.lastInvokeAt
  }

  /**
    Polling is transparent: two histories with the same invokes, whatever Status,
    Get and SetScenario calls are mixed in, show the same worker at every later
    time and give every later invoke the same verdict. The date of the last
    transition is the same too, except before the first invoke, when it is the
    date of the first call.
  */
  lemma PollingTransparent(id: string, ops: seq<Op>, polled: seq<Op>, now: int)
    requires InOrder(ops) && NotBefore(ops, now)
    requires InOrder(polled) && NotBefore(polled, now)
    requires Invokes(ops) == Invokes(polled)
    ensures SameWorker(Look(id, ops, now), Look(id, polled, now))
    ensures WasCold(id, ops, now) == WasCold(id, polled, now)
    ensures Look(id, ops, now).lastTransitionAt == Look(id, polled, now).lastTransitionAt
        <==> Invokes(ops) != [] || Created(ops, now) == Created(polled, now)
  {
    ClosedFormHolds(id, ops, now);
    ClosedFormHolds(id, polled, now);
    WarmExactlyWhen(id, ops, now);
    WarmExactlyWhen(id, polled, now);
  }

  /**
    Time order is needed: a Status that reads a later clock than the Invoke after
    it turns a warm start into a cold one.
  */
  lemma OutOfOrderPollingShows(id: string)
    ensures !WasCold(id, [InvokeAt(0)], 10 * SECOND)
    ensures WasCold(id, [InvokeAt(0), StatusAt(400 * SECOND)], 10 * SECOND)
  {
    var one, two := [InvokeAt(0)], [InvokeAt(0), StatusAt(400 * SECOND)];
    assert one[..0] == [] && two[..1] == one;
    var e := Run(id, one).value;
    assert e == Endpoint(id, Warming, 0, 0, 0, 0, DEFAULT_SCENARIO);
    AdvanceCases(e, 10 * SECOND);
    AdvanceCases(e, 400 * SECOND);
  }

  function Polls(times: seq<int>): seq<Op> {
    if times == [] then [] else [StatusAt(times[0])] + Polls(times[1..])
  }

  lemma PollOnce(id: string, ops: seq<Op>, t: int)
    ensures Run(id, ops + [StatusAt(t)]) == Some(Advance(Touch(id, Run(id, ops), t), t))
  {
    assert (ops + [StatusAt(t)])[..|ops|] == ops;
  }

  lemma PollsSplit(ops: seq<Op>, times: seq<int>)
    requires times != []
    ensures ops + Polls(times) == ops + [StatusAt(times[0])] + Polls(times[1..])
  {
  }

  /** Any Status calls, at times in any order, leave the endpoint as one at the latest time. */
  lemma {:induction false} PollsCollapse(id: string, ops: seq<Op>, times: seq<int>)
    requires times != []
    ensures Run(id, ops + Polls(times)) == Some(Advance(Touch(id, Run(id, ops), times[0]), Latest(times)))
    decreases |times|
  {
    var t, rest := times[0], times[1..];
    var once := ops + [StatusAt(t)];
    PollOnce(id, ops, t);
    PollsSplit(ops, times);
    if rest == [] {
      assert once + Polls(rest) == once;
    } else {
      PollsCollapse(id, once, rest);
      AdvanceTwice(Touch(id, Run(id, ops), t), t, Latest(rest));
    }
  }

  /** A call at or after `now` cannot tell the two apart, and leaves them so. */
  lemma ApplySameFrom(id: string, e: Endpoint, f: Endpoint, op: Op, now: int)
    requires SameFrom(e, f, now) && op.now >= now
    ensures SameFrom(Apply(id, Some(e), op), Apply(id, Some(f), op), now)
    ensures op.InvokeAt? ==> Apply(id, Some(e), op) == Apply(id, Some(f), op)
  {
    if op.SetScenarioAt? {
      forall x | x >= now
        ensures Advance(e.(scenario := op.scenario), x) == Advance(f.(scenario := op.scenario), x)
      {
        ScenarioIsInert(e, op.scenario, x);
        ScenarioIsInert(f, op.scenario, x);
      }
    }
  }

  lemma RunLast(id: string, ops: seq<Op>, after: seq<Op>)
    requires after != []
    ensures var n := |after| - 1;
            Run(id, ops + after) == Some(Apply(id, Run(id, ops + after[..n]), after[n]))
  {
    var n := |after| - 1;
    assert (ops + after)[..|ops| + n] == ops + after[..n];
  }

  lemma {:induction false} RunSameFrom(id: string, one: seq<Op>, other: seq<Op>, after: seq<Op>, now: int)
    requires one != [] && other != [] && SameFrom(Run(id, one).value, Run(id, other).value, now)
    requires AllFrom(after, now)
    ensures SameFrom(Run(id, one + after).value, Run(id, other + after).value, now)
    decreases |after|
  {
    if after == [] {
      assert one + after == one && other + after == other;
    } else {
      var n := |after| - 1;
      RunSameFrom(id, one, other, after[..n], now);
      RunLast(id, one, after);
      RunLast(id, other, after);
      ApplySameFrom(id, Run(id, one + after[..n]).value, Run(id, other + after[..n]).value, after[n], now);
    }
  }

  ghost predicate AllFrom(ops: seq<Op>, now: int) {
    forall i | 0 <= i < |ops| :: ops[i].now >= now
  }

  /** With the polls in between or without them, the endpoint looks the same. */
  ghost predicate LooksAlike(id: string, before: seq<Op>, times: seq<int>, after: seq<Op>, now: int)
    requires before != []
  {
    SameFrom(Run(id, before + Polls(times) + after).value, Run(id, before + after).value, now)
  }

  /**
    Exactly when polls at any place in any history are transparent to everything
    that happens from `now` on. No order of times is assumed before the polls,
    among them, or after `now`.
  */
  lemma PollsUnnoticed(id: string, before: seq<Op>, times: seq<int>, now: int)
    requires before != [] && times != []
    ensures (forall after | AllFrom(after, now) :: LooksAlike(id, before, times, after, now))
       <==> Unnoticed(Run(id, before).value, Latest(times), now)
  {
    var e, polled := Run(id, before).value, before + Polls(times);
    PollsCollapse(id, before, times);
    LookIsUnnoticed(e, Latest(times), now);
    if Unnoticed(e, Latest(times), now) {
      forall after | AllFrom(after, now) ensures LooksAlike(id, before, times, after, now) {
        RunSameFrom(id, polled, before, after, now);
      }
    } else {
      assert polled + [] == polled && before + [] == before;
      assert AllFrom([], now) && !LooksAlike(id, before, times, [], now);
    }
  }

  /**
    The same for the verdict of an invoke at `now` after the invokes `h`, when
    nothing but the polls is out of order. While the worker still warms up it
    must not have been seen warm, and once it is warm it must not have been
    seen expired; if the invoke comes too late for a warm start, no poll matters.
  */
  predicate Harmless(h: seq<int>, t: int, now: int) {
    h == [] || t <= now ||
    var warmAt, idleAt := h[BurstStart(h)] + COLD_START_DURATION, h[|h| - 1] + IDLE_TIMEOUT;
    now >= idleAt || (if now < warmAt then t < warmAt || t >= idleAt else t < idleAt)
  }

  /** Warm at the later of two times, and at the earlier. */
  lemma HarmlessIsSameWarmth(id: string, created: int, h: seq<int>, scenario: Scenario, t: int, now: int)
    requires forall i, j | 0 <= i <= j < |h| :: h[i] <= h[j] <= now
    ensures ClosedForm(id, created, h, scenario, Max(t, now)).worker.Warm?
         == ClosedForm(id, created, h, scenario, now).worker.Warm?
       <==> Harmless(h, t, now)
  {
    if h != [] {
      assert h[BurstStart(h)] <= h[|h| - 1];
    }
  }

  /** Any Status calls, at any times, keep the next verdict if and only if the latest of them is harmless. */
  lemma PollingOutOfOrder(id: string, ops: seq<Op>, times: seq<int>, now: int)
    requires InOrder(ops) && NotBefore(ops, now) && times != []
    ensures WasCold(id, ops + Polls(times), now) == WasCold(id, ops, now)
       <==> Harmless(Invokes(ops), Latest(times), now)
  {
    var t := Latest(times);
    PollsCollapse(id, ops, times);
    AdvanceTwice(Touch(id, Run(id, ops), times[0]), t, now);
    if ops != [] {
      ClosedFormHolds(id, ops, now);
      ClosedFormHolds(id, ops, Max(t, now));
      InvokesInOrder(ops, now);
      HarmlessIsSameWarmth(id, ops[0].now, Invokes(ops), LastScenario(ops), t, now);
    }
  }

  /** What holds of an endpoint at every time not before its last call. */
  ghost predicate WellFormed(e: Endpoint, now: int) {
    && e.workersMin == 0
    && e.workerCount == (if e.worker.Warm? then 1 else 0)
    && e.lastTransitionAt <= now
    && (!e.worker.Cold? ==> e.lastInvokeAt <= now)
    && (e.worker.Warming? ==> e.lastTransitionAt <= e.lastInvokeAt)
    && (e.worker.Warm? ==> e.lastTransitionAt <= e.lastInvokeAt + COLD_START_DURATION)
  }

  lemma AdvanceWellFormed(e: Endpoint, t: int, now: int)
    requires WellFormed(e, t) && t <= now
    ensures WellFormed(Advance(e, now), now)
    ensures e.lastTransitionAt <= Advance(e, now).lastTransitionAt
    decreases Rank(e.worker)
  {
    if Due(e, now) {
      AdvanceWellFormed(Fire(e), now, now);
    }
  }

  /** In time order, every call keeps the endpoint well formed, and its last transition never moves back. */
  lemma {:induction false} RunWellFormed(id: string, ops: seq<Op>)
    requires InOrder(ops) && ops != []
    ensures WellFormed(Run(id, ops).value, ops[|ops| - 1].now)
    ensures Run(id, ops).value.lastTransitionAt <= ops[|ops| - 1].now
    ensures |ops| > 1 ==>
              Run(id, ops[..|ops| - 1]).value.lastTransitionAt <= Run(id, ops).value.lastTransitionAt
    decreases |ops|
  {
    var n := |ops| - 1;
    var before, t := ops[..n], ops[n].now;
    if before != [] {
      RunWellFormed(id, before);
      AdvanceWellFormed(Run(id, before).value, before[n - 1].now, t);
    }
  }

  /** From its last call on, an endpoint is what a simulator makes of it that looks at every instant. */
  lemma LookIsSimulation(id: string, ops: seq<Op>, now: int)
    requires InOrder(ops) && NotBefore(ops, now) && ops != []
    ensures var t := ops[|ops| - 1].now;
            Look(id, ops, now) == Simulate(Advance(Run(id, ops).value, t), t, now)
  {
    var e, t := Run(id, ops).value, ops[|ops| - 1].now;
    RunWellFormed(id, ops);
    AdvanceWellFormed(e, t, t);
    AdvanceTwice(e, t, now);
    JumpIsSimulation(Advance(e, t), t, now);
  }
}
