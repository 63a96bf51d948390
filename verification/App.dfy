/**
 What all handlers and pollers share (`app.state` and the closure of `create_app`, src/gate/app.py), and each
 event carried out on it by the program's own methods: if the objects stand for a state of the machine before,
 they stand for the machine's next state afterwards.
 */
module App {
  import opened Wrappers
  import opened Router
  import opened Routing
  import opened Backends
  import opened Polling
  import opened Walk
  import opened Registry
  import opened Gate
  import opened Caches
  import opened States
  import opened Generation
  import opened PollerTask
  import opened Refinement
  import Runs

  /** The event can happen: a handler or poller awaits it, and the clock does not run backwards. */
  ghost predicate Possible(su: Setup, s: State, e: Event) {
    match e
    case Elapse(seconds) => seconds >= 0.0
    case Arrive(id) => id !in s.handlers
    case ReadBody(id, _, _, clock) => id in s.handlers && s.handlers[id].phase.Reading? && Gate.Runs(clock, s.now)
    case Answered(id, _, clock) => id in s.handlers && s.handlers[id].phase.Proxying? && Gate.Runs(clock, s.now)
    case Released(id, clock) =>
      && id in s.handlers && (s.handlers[id].phase.Releasing? || s.handlers[id].phase.ReleasingLast?)
      && Gate.Runs(clock, s.now)
    case Failed(id) => id in s.handlers && Waiting(s.handlers[id])
    case Fetched(n, _, t1, t2, t3) => n in su.names && n in s.pollers && s.pollers[n].phase.Fetching?
        && s.now <= t1 <= t2 <= t3
    case Discovered(n, _) => n in su.names && n in s.pollers && s.pollers[n].phase.Discovering?
    case Woke(n) => n in su.names && n in s.pollers && s.pollers[n].phase.Sleeping?
  }

  /** `e` takes the reachable state `s` to `t`. Said of every event equal to `e`, it is looked into only where
      one is at hand. */
  ghost predicate Turn(su: Setup, s: State, e: Event, t: State) {
    forall x: Event | x == e :: Runs.Reachable(su, s) && su.select == StartIndex && Possible(su, s, x)
        && t == Step(su, s, x)
  }

  /** The handler an event concerns. */
  function HandlerOf(e: Event): Option<Id> {
    match e
    case ReadBody(id, _, _, _) => Some(id)
    case Answered(id, _, _) => Some(id)
    case Released(id, _) => Some(id)
    case Failed(id) => Some(id)
    case _ => None
  }

  /** The poller an event concerns. */
  function PollerOf(e: Event): Option<Name> {
    match e
    case Fetched(n, _, _, _, _) => Some(n)
    case Discovered(n, _) => Some(n)
    case Woke(n) => Some(n)
    case _ => None
  }

  /** The part of the machine's state that handlers and pollers share, and whether its registry's log is sound. */
  datatype Shared = Shared(backends: map<Name, Backend>, rr: map<Model, nat>, registry: Registry, sound: bool)

  class AppState {
    const su: Setup
    const pool: Pool
    const registry: ModelRegistry
    const routing: RoutingState

    /** No two stores overlap; the fields never change, so neither does this. */
    ghost predicate Apart() {
      pool.Separate() && registry !in pool.footprint && routing !in pool.footprint
    }

    /** What the shared objects stand for. */
    ghost function Shown(): Shared
      requires Apart()
      reads pool.footprint, registry, routing
    {
      Shared(pool.Abstract(), routing.rr, registry.Abstract(), registry.Valid() && registry.ConflictsLogged())
    }

    /** The shared objects stand for the state. */
    ghost predicate Shows(s: State)
      requires Apart()
      reads pool.footprint, registry, routing
    {
      Shown() == Shared(s.backends, s.rr, s.registry, true)
    }

    /** The object stands for handler `id`. */
    ghost predicate ShowsHandler(s: State, id: Id, handler: GenerationHandler)
      reads handler
    {
      id in s.handlers && (handler.Valid(), handler.Abstract()) == (true, s.handlers[id])
    }

    /** The object stands for backend `n`'s poller. */
    ghost predicate ShowsPoller(s: State, n: Name, poller: BackendPoller)
      reads poller
    {
      n in s.pollers && (poller.Valid(), poller.Abstract()) == (true, s.pollers[n])
    }

    /** The poller polls backend `n` of the pool. */
    ghost predicate Polls(n: Name, poller: BackendPoller) {
      n in pool.states && poller.state == pool.states[n] && poller.su == su && poller.name == n
          && poller !in pool.footprint
    }

    constructor (su: Setup, pool: Pool, registry: ModelRegistry, routing: RoutingState)
      requires pool.Separate() && registry !in pool.footprint && routing !in pool.footprint
      ensures (this.su, this.pool, this.registry, this.routing) == (su, pool, registry, routing) && Apart()
      ensures Shown() == old(Shared(pool.Abstract(), routing.rr, registry.Abstract(),
                                    registry.Valid() && registry.ConflictsLogged()))
    {
      this.su, this.pool, this.registry, this.routing := su, pool, registry, routing;
    }

    // ----- a handler's events -----

    /** `ReadBody` from `s`, given that it leads the machine to `t`. */
    method ReadInto(
        handler: GenerationHandler, model: Model, ctx: Option<nat>, clock: nat -> real, ghost s: State, ghost id: Id,
            ghost t: State)
      requires Apart() && handler !in pool.footprint && Shows(s) && ShowsHandler(s, id, handler)
               && handler.phase.Reading?
      requires var r := ResolveCandidates(su, s.registry, model);
               r.candidates != [] && forall c <- r.candidates :: c in s.backends
      requires RanOn(t, id, FirstTry(su, s.registry, s.backends, s.rr, model, ctx, clock), s.backends, clock,
               su.staleAfter)
      requires Beside(s, t, id) && t.rr == s.rr
      modifies handler, pool.footprint
      ensures Shows(t) && ShowsHandler(t, id, handler)
    {
      ghost var h := FirstTry(su, s.registry, s.backends, s.rr, model, ctx, clock);
      handler.ReadBody(su, pool, registry, routing, model, ctx, clock, h);
    }

    method ReadBody(
        handler: GenerationHandler, model: Model, ctx: Option<nat>, clock: nat -> real, ghost s: State, ghost id: Id)
      requires Runs.Reachable(su, s) && su.select == StartIndex && Gate.Runs(clock, s.now)
      requires Apart() && handler !in pool.footprint && Shows(s) && ShowsHandler(s, id, handler)
               && handler.phase.Reading?
      modifies handler, pool.footprint
      ensures Shows(Step(su, s, Event.ReadBody(id, model, ctx, clock)))
              && ShowsHandler(Step(su, s, Event.ReadBody(id, model, ctx, clock)), id, handler)
    {
      NoHandlerIsStuck(su, s, id, clock);
      assert Known(s, NEW_HANDLER.(candidates := ResolveCandidates(su, s.registry, model).candidates));
      ReadBodyIsStep(su, s, id, model, ctx, clock);
      ReadInto(handler, model, ctx, clock, s, id, Step(su, s, Event.ReadBody(id, model, ctx, clock)));
    }

    method ServeInto(handler: GenerationHandler, status: int, ghost s: State, ghost id: Id, ghost t: State)
      requires Apart() && handler !in pool.footprint && Shows(s) && ShowsHandler(s, id, handler)
               && handler.phase.Proxying? && handler.candidates != [] && status < 500
      requires Beside(s, t, id) && t.handlers[id] == Receive(s.handlers[id], Responded(status))
      requires t.backends == s.backends && t.rr == RrAdvance(s.rr, s.handlers[id].model, |s.handlers[id].candidates|)
      modifies handler, routing
      ensures Shows(t) && ShowsHandler(t, id, handler)
    {
      handler.Served(routing, status);
    }

    /** The failure of a proxied request from `s`, given that it leads the machine to `t`. */
    method FailInto(
        handler: GenerationHandler, u: Upstream, clock: nat -> real, ghost s: State, ghost id: Id, ghost t: State)
      requires Apart() && handler !in pool.footprint && Shows(s) && ShowsHandler(s, id, handler)
               && CanAnswer(s, id, clock) && Fails(u)
      requires Beside(s, t, id) && t.rr == s.rr
      requires var g, settled := Receive(s.handlers[id], u), SettledIn(s.backends, s.handlers[id]);
               && g.candidates == s.handlers[id].candidates
               && if g.phase.Walking? then RanOn(t, id, g, settled, clock, su.staleAfter)
                  else t.handlers[id] == g && t.backends == settled
      modifies handler, pool.footprint
      ensures Shows(t) && ShowsHandler(t, id, handler)
    {
      handler.Failed(pool, u, clock, su.staleAfter);
    }

    method Answered(handler: GenerationHandler, u: Upstream, clock: nat -> real, ghost s: State, ghost id: Id)
      requires Runs.Reachable(su, s) && Gate.Runs(clock, s.now)
      requires Apart() && handler !in pool.footprint && Shows(s) && ShowsHandler(s, id, handler)
               && handler.phase.Proxying?
      modifies handler, pool.footprint, routing
      ensures Shows(Step(su, s, Event.Answered(id, u, clock)))
              && ShowsHandler(Step(su, s, Event.Answered(id, u, clock)), id, handler)
    {
      NoHandlerIsStuck(su, s, id, clock);
      ghost var t := Step(su, s, Event.Answered(id, u, clock));
      if Fails(u) {
        FailedIsStep(su, s, id, u, clock);
        FailInto(handler, u, clock, s, id, t);
      } else {
        ServedIsStep(su, s, id, u.status, clock);
        ServeInto(handler, u.status, s, id, t);
      }
    }

    method ReleaseInto(handler: GenerationHandler, clock: nat -> real, ghost s: State, ghost id: Id, ghost t: State)
      requires Apart() && handler !in pool.footprint && Shows(s) && ShowsHandler(s, id, handler)
               && CanRelease(s, id, clock)
      requires Beside(s, t, id) && t.rr == s.rr
      requires var g := Release(s.handlers[id]);
               && g.candidates == s.handlers[id].candidates
               && if g.phase.Walking? then RanOn(t, id, g, s.backends, clock, su.staleAfter)
                  else t.handlers[id] == g && t.backends == s.backends
      modifies handler, pool.footprint
      ensures Shows(t) && ShowsHandler(t, id, handler)
    {
      handler.Released(pool, clock, su.staleAfter);
    }

    method Released(handler: GenerationHandler, clock: nat -> real, ghost s: State, ghost id: Id)
      requires Runs.Reachable(su, s) && Gate.Runs(clock, s.now)
      requires Apart() && handler !in pool.footprint && Shows(s) && ShowsHandler(s, id, handler)
               && (handler.phase.Releasing? || handler.phase.ReleasingLast?)
      modifies handler, pool.footprint
      ensures Shows(Step(su, s, Event.Released(id, clock)))
              && ShowsHandler(Step(su, s, Event.Released(id, clock)), id, handler)
    {
      NoHandlerIsStuck(su, s, id, clock);
      ReleasedIsStep(su, s, id, clock);
      ReleaseInto(handler, clock, s, id, Step(su, s, Event.Released(id, clock)));
    }

    method Failed(handler: GenerationHandler, ghost s: State, ghost id: Id)
      requires Apart() && handler !in pool.footprint && Shows(s) && ShowsHandler(s, id, handler)
               && Waiting(handler.Abstract())
      modifies handler
      ensures Shows(Step(su, s, Event.Failed(id))) && ShowsHandler(Step(su, s, Event.Failed(id)), id, handler)
    {
      handler.Fail();
    }

    /** Whatever a handler awaits, its object carries it out as the machine does. */
    method HandlerEvent(handler: GenerationHandler, e: Event, ghost s: State, ghost id: Id)
      requires Runs.Reachable(su, s) && su.select == StartIndex && Possible(su, s, e) && HandlerOf(e) == Some(id)
      requires Apart() && handler !in pool.footprint && Shows(s) && ShowsHandler(s, id, handler)
      modifies handler, pool.footprint, routing
      ensures Shows(Step(su, s, e)) && ShowsHandler(Step(su, s, e), id, handler)
    {
      match e
      case ReadBody(_, model, ctx, clock) => ReadBody(handler, model, ctx, clock, s, id);
      case Answered(_, u, clock) => Answered(handler, u, clock, s, id);
      case Released(_, clock) => Released(handler, clock, s, id);
      case Failed(_) => Failed(handler, s, id);
    }

    method HandlerTurn(handler: GenerationHandler, e: Event, ghost s: State, ghost t: State, ghost id: Id)
      requires Turn(su, s, e, t) && HandlerOf(e) == Some(id)
      requires Apart() && handler !in pool.footprint && Shows(s) && ShowsHandler(s, id, handler)
      modifies handler, pool.footprint, routing
      ensures Shows(t) && ShowsHandler(t, id, handler)
    {
      assert Possible(su, s, e);
      HandlerEvent(handler, e, s, id);
    }

    // ----- a poller's events -----

    /** The fetch half of a tick touches one backend's stores only. */
    method Poll(poller: BackendPoller, fetch: Fetch, t1: real, t2: real, t3: real)
      requires Apart() && poller.Valid() && poller.InStep() && poller.phase.Fetching? && poller !in pool.footprint
      requires poller.name in pool.states && poller.state == pool.states[poller.name]
      modifies poller, pool.footprint
      ensures poller.Valid()
      ensures poller.Abstract() == AfterFetch(old(poller.Abstract()), PollOf(fetch), t3, poller.su.refreshAfter)
      ensures poller.state.Abstract() ==
              Refresh(old(poller.state.Abstract()), PollOf(fetch), t1, t2).(flags := FlagsOf(poller.signals))
      ensures forall m <- pool.states | m != poller.name :: pool.states[m].Abstract() == old(pool.states[m].Abstract())
    {
      poller.Fetched(fetch, t1, t2, t3);
    }

    method FetchInto(poller: BackendPoller, fetch: Fetch, t1: real, t2: real, t3: real, ghost s: State, ghost t: State)
      requires Apart() && Polls(poller.name, poller) && Shows(s) && ShowsPoller(s, poller.name, poller)
               && poller.phase.Fetching?
      requires poller.InStep()
      requires var n, o := poller.name, PollOf(fetch);
               && (t.registry, t.rr) == (s.registry, s.rr)
               && t.pollers == s.pollers[n := AfterFetch(s.pollers[n], o, t3, su.refreshAfter)]
               && t.backends ==
                  s.backends[n := Refresh(s.backends[n], o, t1, t2).(flags := FlagsOf(Signal(s.pollers[n].signals, o)))]
      modifies poller, pool.footprint
      ensures Shows(t) && ShowsPoller(t, poller.name, poller)
    {
      ghost var before := pool.Abstract();
      Poll(poller, fetch, t1, t2, t3);
      pool.OnlyOneMoved(before, poller.name);
    }

    method Fetched(poller: BackendPoller, fetch: Fetch, t1: real, t2: real, t3: real, ghost s: State)
      requires Runs.Reachable(su, s) && poller.name in su.names && s.now <= t1 <= t2 <= t3
      requires Apart() && Polls(poller.name, poller) && Shows(s) && ShowsPoller(s, poller.name, poller)
               && poller.phase.Fetching?
      modifies poller, pool.footprint
      ensures var t := Step(su, s, Event.Fetched(poller.name, fetch, t1, t2, t3));
              Shows(t) && ShowsPoller(t, poller.name, poller)
    {
      PollerIsWired(su, s, poller.name);
      FetchMoves(su, s, poller.name, fetch, t1, t2, t3);
      FetchInto(poller, fetch, t1, t2, t3, s, Step(su, s, Event.Fetched(poller.name, fetch, t1, t2, t3)));
    }

    /** Discovery leaves every backend as it is. */
    method DiscoverApart(poller: BackendPoller, models: Option<seq<Model>>)
      requires Apart() && poller !in pool.footprint && poller.Valid() && poller.name in registry.defaults
      requires registry.Valid() && registry.ConflictsLogged()
      modifies poller, registry
      ensures (poller.Valid(), poller.Abstract()) ==
              (true, AfterDiscovery(poller.su, old(poller.Abstract()), poller.name, models))
      ensures (registry.Valid() && registry.ConflictsLogged(), registry.Abstract()) ==
              (true, SyncedBy(poller.su, old(registry.Abstract()), poller.name, models))
      ensures pool.Abstract() == old(pool.Abstract())
    {
      poller.Discover(registry, models);
    }

    method DiscoverInto(poller: BackendPoller, models: Option<seq<Model>>, ghost s: State, ghost t: State)
      requires Apart() && (registry.Valid() && registry.ConflictsLogged(), registry.Abstract()) == (true, s.registry)
      requires Polls(poller.name, poller) && ShowsPoller(s, poller.name, poller) && poller.name in registry.defaults
      requires var n := poller.name;
               && n in su.explicit && t.registry == SyncedBy(su, s.registry, n, models)
               && t.pollers == s.pollers[n := AfterDiscovery(su, s.pollers[n], n, models)]
      modifies poller, registry
      ensures (registry.Valid() && registry.ConflictsLogged(), registry.Abstract()) == (true, t.registry)
      ensures ShowsPoller(t, poller.name, poller)
      ensures pool.Abstract() == old(pool.Abstract())
    {
      DiscoverApart(poller, models);
    }

    method DiscoverShared(poller: BackendPoller, models: Option<seq<Model>>, ghost s: State, ghost t: State)
      requires Apart() && Polls(poller.name, poller) && Shows(s) && ShowsPoller(s, poller.name, poller)
               && poller.name in registry.defaults
      requires var n := poller.name;
               && (t.backends, t.rr) == (s.backends, s.rr)
               && n in su.explicit && t.registry == SyncedBy(su, s.registry, n, models)
               && t.pollers == s.pollers[n := AfterDiscovery(su, s.pollers[n], n, models)]
      modifies poller, registry
      ensures Shows(t) && ShowsPoller(t, poller.name, poller)
    {
      DiscoverInto(poller, models, s, t);
    }

    method Discovered(poller: BackendPoller, models: Option<seq<Model>>, ghost s: State)
      requires Runs.Reachable(su, s) && poller.name in su.names
      requires Apart() && Polls(poller.name, poller) && Shows(s) && ShowsPoller(s, poller.name, poller)
               && poller.phase.Discovering?
      modifies poller, registry
      ensures var t := Step(su, s, Event.Discovered(poller.name, models));
              Shows(t) && ShowsPoller(t, poller.name, poller)
    {
      PollerIsWired(su, s, poller.name);
      DiscoveryMoves(su, s, poller.name, models);
      assert poller.name in registry.Abstract().order;
      DiscoverShared(poller, models, s, Step(su, s, Event.Discovered(poller.name, models)));
    }

    method Woke(poller: BackendPoller, ghost s: State)
      requires Apart() && Polls(poller.name, poller) && Shows(s) && ShowsPoller(s, poller.name, poller)
               && poller.phase.Sleeping?
      modifies poller
      ensures var t := Step(su, s, Event.Woke(poller.name)); Shows(t) && ShowsPoller(t, poller.name, poller)
    {
      poller.Wake();
    }

    method PollerEvent(poller: BackendPoller, e: Event, ghost s: State, ghost n: Name)
      requires Runs.Reachable(su, s) && Possible(su, s, e) && PollerOf(e) == Some(n)
      requires Apart() && Polls(n, poller) && Shows(s) && ShowsPoller(s, n, poller)
      modifies poller, pool.footprint, registry
      ensures Shows(Step(su, s, e)) && ShowsPoller(Step(su, s, e), n, poller)
    {
      match e
      case Fetched(_, fetch, t1, t2, t3) => Fetched(poller, fetch, t1, t2, t3, s);
      case Discovered(_, models) => Discovered(poller, models, s);
      case Woke(_) => Woke(poller, s);
    }

    method PollerTurn(poller: BackendPoller, e: Event, ghost s: State, ghost t: State, ghost n: Name)
      requires Turn(su, s, e, t) && PollerOf(e) == Some(n)
      requires Apart() && Polls(n, poller) && Shows(s) && ShowsPoller(s, n, poller)
      modifies poller, pool.footprint, registry
      ensures Shows(t) && ShowsPoller(t, n, poller)
    {
      assert Possible(su, s, e);
      PollerEvent(poller, e, s, n);
    }
  }

  /** A configured backend's poller, its books and its flags are in step. */
  lemma PollerIsWired(su: Setup, s: State, n: Name)
    requires Runs.Reachable(su, s) && n in su.names
    ensures n in s.backends && n in s.ledgers && n in s.pollers && n in su.explicit && s.registry.order == su.names
    ensures s.backends[n].flags == FlagsOf(s.pollers[n].signals)
  {
    Runs.ReachableInv(su, s);
    assert Runs.PolledAt(s, n);
  }

  lemma FetchMoves(su: Setup, s: State, n: Name, fetch: Fetch, t1: real, t2: real, t3: real)
    requires n in su.names && n in s.pollers && n in s.backends && n in s.ledgers
    requires s.pollers[n].phase.Fetching? && s.now <= t1 <= t2 <= t3
    ensures var t, o := Step(su, s, Event.Fetched(n, fetch, t1, t2, t3)), PollOf(fetch);
            && (t.registry, t.rr, t.handlers) == (s.registry, s.rr, s.handlers)
            && t.pollers == s.pollers[n := AfterFetch(s.pollers[n], o, t3, su.refreshAfter)]
            && t.backends ==
               s.backends[n := Refresh(s.backends[n], o, t1, t2).(flags := FlagsOf(Signal(s.pollers[n].signals, o)))]
  {
  }

  lemma DiscoveryMoves(su: Setup, s: State, n: Name, models: Option<seq<Model>>)
    requires n in s.pollers && s.pollers[n].phase.Discovering? && n in su.explicit
    ensures var t := Step(su, s, Event.Discovered(n, models));
            && (t.backends, t.rr, t.handlers) == (s.backends, s.rr, s.handlers)
            && t.registry == SyncedBy(su, s.registry, n, models)
            && t.pollers == s.pollers[n := AfterDiscovery(su, s.pollers[n], n, models)]
  {
  }
}
