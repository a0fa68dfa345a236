/** What the invoke handler of the mock provider reports. */
module Handlers {
  import opened Basics
  import opened EndpointModel
  import opened EndpointHistory
  import opened Store

  const WARM_LATENCY_MS: int := 120

  datatype Response = Failure(mode: FailureMode) | Invoked(wasCold: bool, latencyMs: int)

  /** applyFailureHeader: is the scenario failing requests at `now`? */
  predicate Failing(s: Scenario, now: int) {
    !s.failure.NoFailure? && now < s.failureUntil
  }

  /**
    handleInvoke; `meanwhile` is what other handlers do while this one is delayed
    between its two calls of the store. A failing scenario is reported and does
    not invoke. If the calls so far came in time order, a served request is
    reported warm exactly when the last burst of invokes is alive and older than
    a cold start.
  */
  method HandleInvoke(store: Store, id: string, now: int, meanwhile: seq<Event>) returns (response: Response)
    requires store.Valid()
    modifies store, store.endpoints.Values
    ensures store.Valid()
    ensures var scenario := LastScenario(OpsOf(old(store.log), id));
            && (response.Failure? <==> scenario.failure != NoFailure && now < scenario.failureUntil)
            && (response.Failure? ==> response.mode == scenario.failure)
    ensures var before := old(store.log) + [Called(id, GetAt(now))] + meanwhile;
            && store.log == before + (if response.Failure? then [] else [Called(id, InvokeAt(now))])
            && (response.Invoked? ==>
                  && response.wasCold == WasCold(id, OpsOf(before, id), now)
                  && response.latencyMs == (if response.wasCold then 8000 else 120)
                  && (LogInOrder(before, now) ==> WarmBurst(Invokes(OpsOf(before, id)), now) == !response.wasCold))
  {
    ghost var log := store.log;
    var seen := store.Get(id, now);
    GetShows(log, id, now);
    store.PerformAll(meanwhile);
    if Failing(seen.scenario, now) {
      return Failure(seen.scenario.failure);
    }
    VerdictOf(store.log, id, now);
    var ep := store.Invoke(id, now);
    var wasCold := ep.worker != Warm;
    var latency := WARM_LATENCY_MS;
    if wasCold {
      latency := COLD_START_DURATION / 1_000_000;
    }
    response := Invoked(wasCold, latency);
  }

  /** The last burst of invokes is alive and older than a cold start. */
  predicate WarmBurst(h: seq<int>, now: int) {
    h != [] && now < h[|h| - 1] + 300_000_000_000 && h[BurstStart(h)] + 8_000_000_000 <= now
  }

  /** The scenario is the last one set. */
  lemma {:induction false} ScenarioOfRun(id: string, ops: seq<Op>)
    ensures Run(id, ops).Some? ==> Run(id, ops).value.scenario == LastScenario(ops)
    ensures Run(id, ops).None? <==> ops == []
    decreases |ops|
  {
    if ops != [] {
      ScenarioOfRun(id, ops[..|ops| - 1]);
    }
  }

  /**
    When requests for an id fail, over the calls for it: if scenario `s` was the
    last one set, exactly at the times before its end, if it fails at all; and never
    if none was set.
  */
  lemma FailsExactly(log: seq<Event>, id: string, k: nat, now: int)
    requires forall i | k < i < |OpsOf(log, id)| :: !OpsOf(log, id)[i].SetScenarioAt?
    ensures var ops := OpsOf(log, id);
            var shown := Apply(id, Find(Replay(log), id), GetAt(now)).scenario;
            && (k < |ops| && ops[k].SetScenarioAt? ==>
                  (Failing(shown, now) <==> ops[k].scenario.failure != NoFailure && now < ops[k].scenario.failureUntil))
            && (k == 0 && (ops == [] || !ops[0].SetScenarioAt?) ==> !Failing(shown, now))
  {
    GetShows(log, id, now);
    LastScenarioIs(OpsOf(log, id), k);
  }

  /** What the handler's Get returns. */
  lemma GetShows(log: seq<Event>, id: string, now: int)
    ensures Apply(id, Find(Replay(log), id), GetAt(now)).scenario == LastScenario(OpsOf(log, id))
  {
    StoreIsProduct(log, id);
    ScenarioOfRun(id, OpsOf(log, id));
  }

  /** What the handler's Invoke reports after any calls of the store. */
  lemma VerdictOf(log: seq<Event>, id: string, now: int)
    ensures Apply(id, Find(Replay(log), id), InvokeAt(now)).worker.Warm? <==> !WasCold(id, OpsOf(log, id), now)
    ensures LogInOrder(log, now) ==> WarmBurst(Invokes(OpsOf(log, id)), now) == !WasCold(id, OpsOf(log, id), now)
  {
    StoreIsProduct(log, id);
    if LogInOrder(log, now) {
      OpsInOrder(log, id, now);
      WarmExactlyWhen(id, OpsOf(log, id), now);
    }
  }

  /**
    The handler's own Get changes no verdict: with nothing in between, its Invoke
    reports what it would have reported without.
  */
  lemma GetIsInert(log: seq<Event>, id: string, now: int)
    ensures WasCold(id, OpsOf(log + [Called(id, GetAt(now))], id), now) == WasCold(id, OpsOf(log, id), now)
  {
    var ops := OpsOf(log, id);
    OpsExtend(log, id, GetAt(now));
    assert (ops + [GetAt(now)])[..|ops|] == ops;
  }
}
