/**
  The store of mock endpoints: a map from ids to objects that are changed in
  place, created on first use. Its methods run one at a time under a lock.
*/
module Store {
  import opened Basics
  import opened EndpointModel
  import opened EndpointHistory

  // ---------- histories of the whole store ----------

  datatype Event = Called(id: string, op: Op) | WasReset

  function Find(m: map<string, Endpoint>, id: string): Option<Endpoint> {
    if id in m then Some(m[id]) else None
  }

  function ApplyEvent(m: map<string, Endpoint>, e: Event): map<string, Endpoint> {
    match e
    case Called(id, op) => m[id := Apply(id, Find(m, id), op)]
    case WasReset => map[]
  }

  function Replay(log: seq<Event>): map<string, Endpoint>
    decreases |log|
  {
    if log == [] then map[] else ApplyEvent(Replay(log[..|log| - 1]), log[|log| - 1])
  }

  /** The calls for one id since the last reset. */
  function OpsOf(log: seq<Event>, id: string): seq<Op>
    decreases |log|
  {
    if log == [] then []
    else
      var before := OpsOf(log[..|log| - 1], id);
      match log[|log| - 1]
      case Called(other, op) => if other == id then before + [op] else before
      case WasReset => []
  }

  /** The store is the product of independent endpoints: each is the run of its own calls. */
  lemma {:induction false} StoreIsProduct(log: seq<Event>, id: string)
    ensures Find(Replay(log), id) == Run(id, OpsOf(log, id))
    decreases |log|
  {
    if log != [] {
      var before, last := log[..|log| - 1], log[|log| - 1];
      StoreIsProduct(before, id);
      if last.Called? && last.id == id {
        var ops := OpsOf(before, id);
        assert OpsOf(log, id)[..|ops|] == ops;
      }
    }
  }

  ghost predicate LogInOrder(log: seq<Event>, now: int) {
    && (forall i | 0 <= i < |log| && log[i].Called? :: log[i].op.now <= now)
    && (forall i, j | 0 <= i < j < |log| && log[i].Called? && log[j].Called? :: log[i].op.now <= log[j].op.now)
  }

  lemma {:induction false} OpsInOrder(log: seq<Event>, id: string, now: int)
    requires LogInOrder(log, now)
    ensures InOrder(OpsOf(log, id)) && NotBefore(OpsOf(log, id), now)
    decreases |log|
  {
    if log != [] {
      var n := |log| - 1;
      var before, last := log[..n], log[n];
      OpsInOrder(before, id, if last.Called? then last.op.now else now);
    }
  }

  lemma ReplayExtends(log: seq<Event>, e: Event)
    ensures Replay(log + [e]) == ApplyEvent(Replay(log), e)
  {
    assert (log + [e])[..|log|] == log;
  }

  lemma OpsExtend(log: seq<Event>, id: string, op: Op)
    ensures OpsOf(log + [Called(id, op)], id) == OpsOf(log, id) + [op]
  {
    assert (log + [Called(id, op)])[..|log|] == log;
  }

  /** What Status shows after calls in time order: the closed form of the invokes of that id. */
  lemma StatusShows(log: seq<Event>, id: string, now: int)
    requires LogInOrder(log, now)
    ensures var ops := OpsOf(log, id);
            Apply(id, Find(Replay(log), id), StatusAt(now))
            == ClosedForm(id, Created(ops, now), Invokes(ops), LastScenario(ops), now)
  {
    StoreIsProduct(log, id);
    OpsInOrder(log, id, now);
    ClosedFormHolds(id, OpsOf(log, id), now);
  }

  /** What Invoke returns after calls in time order: the closed form with this invoke as the last one. */
  lemma InvokeShows(log: seq<Event>, id: string, now: int)
    requires LogInOrder(log, now)
    ensures var ops := OpsOf(log, id);
            Apply(id, Find(Replay(log), id), InvokeAt(now))
            == ClosedForm(id, Created(ops, now), Invokes(ops) + [now], LastScenario(ops), now)
  {
    StoreIsProduct(log, id);
    OpsInOrder(log, id, now);
    var ops := OpsOf(log, id);
    ClosedFormHolds(id, ops, now);
    InvokesInOrder(ops, now);
    ApplyOnClosedForm(id, Run(id, ops), InvokeAt(now), Created(ops, now), Invokes(ops), LastScenario(ops), now);
    InvokedIsCurrent(Touch(id, Run(id, ops), now), now);
  }

  /** Right after an invoke nothing is due. */
  lemma InvokedIsCurrent(e: Endpoint, now: int)
    ensures Advance(EndpointModel.Invoke(e, now), now) == EndpointModel.Invoke(e, now)
  {
  }

  // ---------- the objects ----------

  class EndpointState {
    const id: string
    var workerState: WorkerState
    var workerCount: int
    var workersMin: int
    var lastTransitionAt: int
    var lastInvokeAt: int
    var scenario: Scenario

    function View(): Endpoint
      reads this
    {
      Endpoint(id, workerState, workerCount, workersMin, lastTransitionAt, lastInvokeAt, scenario)
    }

    constructor (id: string, now: int)
      ensures View() == New(id, now)
    {
      this.id := id;
      workerState, workerCount, workersMin := Cold, 0, 0;
      lastTransitionAt, lastInvokeAt, scenario := now, 0, DEFAULT_SCENARIO;
    }

    /** advance: one transition at a time, until none is due. */
    method Resolve(now: int)
      modifies this
      ensures View() == Advance(old(View()), now)
    {
      while true
        invariant Advance(View(), now) == Advance(old(View()), now)
        decreases Rank(workerState)
      {
        match workerState
        case Warming =>
          var warmedAt := lastTransitionAt + COLD_START_DURATION;
          if now < warmedAt {
            return;
          }
          workerState, workerCount, lastTransitionAt := Warm, 1, warmedAt;
        case Warm =>
          var idleAt := lastInvokeAt + IDLE_TIMEOUT;
          if workersMin > 0 || now < idleAt {
            return;
          }
          workerState, workerCount, lastTransitionAt := Cold, 0, idleAt;
        case Cold =>
          return;
      }
    }

    /** What Store.Invoke does to the endpoint under the lock. */
    method MarkInvoked(now: int)
      modifies this
      ensures View() == Invoke(old(View()), now)
    {
      Resolve(now);
      if workerState == Cold {
        workerState := Warming;
        lastTransitionAt := now;
      }
      lastInvokeAt := now;
    }
  }

  class Store {
    var endpoints: map<string, EndpointState>
    ghost var log: seq<Event>

    ghost function Contents(): map<string, Endpoint>
      reads this, endpoints.Values
    {
      map id | id in endpoints :: endpoints[id].View()
    }

    /** Ids name different objects. */
    ghost predicate Injective()
      reads this
    {
      forall a, b | a in endpoints && b in endpoints && a != b :: endpoints[a] != endpoints[b]
    }

    /** The objects are what the log of calls makes of them. */
    ghost predicate Valid()
      reads this, endpoints.Values
    {
      Injective() && Contents() == Replay(log)
    }

    constructor ()
      ensures Valid() && log == []
    {
      endpoints, log := map[], [];
    }

    /** The next state of the log and the store after a call for `id`. */
    twostate predicate Logged(id: string, op: Op)
      reads this, endpoints.Values
    {
      && Valid()
      && log == old(log) + [Called(id, op)]
      && Contents() == ApplyEvent(old(Contents()), Called(id, op))
    }

    method GetOrCreate(id: string, now: int) returns (ep: EndpointState)
      requires Valid()
      modifies `endpoints
      ensures Injective() && id in endpoints && endpoints[id] == ep
      ensures fresh(endpoints.Values - old(endpoints.Values))
      ensures Contents() == old(Contents())[id := Touch(id, Find(old(Contents()), id), now)]
    {
      if id in endpoints {
        ep := endpoints[id];
      } else {
        ep := new EndpointState(id, now);
        endpoints := endpoints[id := ep];
      }
    }

    // The functions that Update runs on the live endpoint.

    method ReplaceScenario(id: string, ep: EndpointState, scenario: Scenario, now: int,
                           ghost before: map<string, Endpoint>)
      requires Injective() && id in endpoints && endpoints[id] == ep
      requires Contents() == before[id := Touch(id, Find(before, id), now)]
      modifies ep
      ensures Contents() == ApplyEvent(before, Called(id, SetScenarioAt(scenario, now)))
    {
      ep.scenario := scenario;
    }

    method LookAt(id: string, ep: EndpointState, now: int, ghost before: map<string, Endpoint>)
      requires Injective() && id in endpoints && endpoints[id] == ep
      requires Contents() == before[id := Touch(id, Find(before, id), now)]
      modifies ep
      ensures Contents() == ApplyEvent(before, Called(id, StatusAt(now)))
    {
      ep.Resolve(now);
    }

    method InvokeOn(id: string, ep: EndpointState, now: int, ghost before: map<string, Endpoint>)
      requires Injective() && id in endpoints && endpoints[id] == ep
      requires Contents() == before[id := Touch(id, Find(before, id), now)]
      modifies ep
      ensures Contents() == ApplyEvent(before, Called(id, InvokeAt(now)))
    {
      ep.MarkInvoked(now);
    }

    method Get(id: string, now: int) returns (r: Endpoint)
      requires Valid()
      modifies this
      ensures Logged(id, GetAt(now)) && r == Contents()[id]
      ensures id in old(Contents()) ==> Contents() == old(Contents()) && r == old(Contents())[id]
      ensures id !in old(Contents()) ==> r == Endpoint(id, Cold, 0, 0, now, 0, Scenario(0, NoFailure, 0))
      ensures fresh(endpoints.Values - old(endpoints.Values))
    {
      ghost var before := Contents();
      var ep := GetOrCreate(id, now);
      Append(id, GetAt(now), before);
      r := ep.View();
    }

    method SetScenario(id: string, scenario: Scenario, now: int)
      requires Valid()
      modifies this, endpoints.Values
      ensures Logged(id, SetScenarioAt(scenario, now))
      ensures id in old(Contents()) ==> Contents()[id] == old(Contents())[id].(scenario := scenario)
      ensures id !in old(Contents()) ==> Contents()[id] == Endpoint(id, Cold, 0, 0, now, 0, scenario)
      ensures fresh(endpoints.Values - old(endpoints.Values))
    {
      ghost var before := Contents();
      var ep := GetOrCreate(id, now);
      ReplaceScenario(id, ep, scenario, now, before);
      Append(id, SetScenarioAt(scenario, now), before);
    }

    method Status(id: string, now: int) returns (r: Endpoint)
      requires Valid()
      modifies this, endpoints.Values
      ensures Logged(id, StatusAt(now)) && r == Contents()[id]
      ensures LogInOrder(old(log), now) ==>
                var ops := OpsOf(old(log), id);
                r == ClosedForm(id, Created(ops, now), Invokes(ops), LastScenario(ops), now)
      ensures fresh(endpoints.Values - old(endpoints.Values))
    {
      ghost var before := Contents();
      if LogInOrder(log, now) {
        StatusShows(log, id, now);
      }
      var ep := GetOrCreate(id, now);
      LookAt(id, ep, now, before);
      Append(id, StatusAt(now), before);
      r := ep.View();
    }

    method Invoke(id: string, now: int) returns (r: Endpoint)
      requires Valid()
      modifies this, endpoints.Values
      ensures Logged(id, InvokeAt(now)) && r == Contents()[id]
      ensures LogInOrder(old(log), now) ==>
                var ops := OpsOf(old(log), id);
                r == ClosedForm(id, Created(ops, now), Invokes(ops) + [now], LastScenario(ops), now)
      ensures fresh(endpoints.Values - old(endpoints.Values))
    {
      ghost var before := Contents();
      if LogInOrder(log, now) {
        InvokeShows(log, id, now);
      }
      var ep := GetOrCreate(id, now);
      InvokeOn(id, ep, now, before);
      Append(id, InvokeAt(now), before);
      r := ep.View();
    }

    method Reset()
      requires Valid()
      modifies this
      ensures Valid() && log == old(log) + [WasReset] && Contents() == map[] && endpoints == map[]
    {
      ReplayExtends(log, WasReset);
      endpoints := map[];
      log := log + [WasReset];
      assert Contents() == map[];
    }

    /** One call of somebody else. */
    method Perform(e: Event)
      requires Valid()
      modifies this, endpoints.Values
      ensures Valid() && log == old(log) + [e]
      ensures fresh(endpoints.Values - old(endpoints.Values))
    {
      match e
      case WasReset => Reset();
      case Called(id, InvokeAt(now)) => var _ := Invoke(id, now);
      case Called(id, StatusAt(now)) => var _ := Status(id, now);
      case Called(id, GetAt(now)) => var _ := Get(id, now);
      case Called(id, SetScenarioAt(scenario, now)) => SetScenario(id, scenario, now);
    }

    /** The calls of everybody else, in the order in which they get the lock. */
    method PerformAll(events: seq<Event>)
      requires Valid()
      modifies this, endpoints.Values
      ensures Valid() && log == old(log) + events
      ensures fresh(endpoints.Values - old(endpoints.Values))
    {
      for k := 0 to |events|
        invariant Valid() && log == old(log) + events[..k]
        invariant fresh(endpoints.Values - old(endpoints.Values))
      {
        assert events[..k + 1] == events[..k] + [events[k]];
        Perform(events[k]);
      }
      assert events[..|events|] == events;
    }

    /** The call goes into the log. */
    ghost method Append(id: string, op: Op, before: map<string, Endpoint>)
      requires Injective() && before == Replay(log)
      requires Contents() == ApplyEvent(before, Called(id, op))
      modifies `log
      ensures Valid() && log == old(log) + [Called(id, op)]
    {
      ReplayExtends(log, Called(id, op));
      log := log + [Called(id, op)];
    }
  }
}
