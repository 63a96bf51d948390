/**
 The whole running program (`create_app`, src/gate/app.py): its wiring, one object per request and per poller,
 and every run of it. Whatever events happen, the objects stand for the state the machine reaches by them, so
 what is proved of reachable states holds of the objects.
 */
module Program {
  import opened Wrappers
  import opened Router
  import opened Routing
  import opened Backends
  import opened Polling
  import opened Walk
  import opened Registry
  import opened Gate
  import opened Caches
  import opened States
  import opened Generation
  import opened PollerTask
  import opened Refinement
  import opened App
  import Runs
  import Guarantees

  // ----- what an event leaves alone -----

  lemma HandlerMoves(su: Setup, s: State, e: Event, id: Id)
    requires Runs.Reachable(su, s) && su.select == StartIndex && Possible(su, s, e) && HandlerOf(e) == Some(id)
    ensures Beside(s, Step(su, s, e), id)
  {
    match e
    case ReadBody(_, model, ctx, clock) =>
      NoHandlerIsStuck(su, s, id, clock);
      assert Known(s, NEW_HANDLER.(candidates := ResolveCandidates(su, s.registry, model).candidates));
      ReadBodyIsStep(su, s, id, model, ctx, clock);
    case Answered(_, u, clock) =>
      NoHandlerIsStuck(su, s, id, clock);
      if Fails(u) {
        FailedIsStep(su, s, id, u, clock);
      } else {
        ServedIsStep(su, s, id, u.status, clock);
      }
    case Released(_, clock) =>
      NoHandlerIsStuck(su, s, id, clock);
      ReleasedIsStep(su, s, id, clock);
    case Failed(_) =>
  }

  lemma HandlerTurns(su: Setup, s: State, e: Event, t: State, id: Id)
    requires Turn(su, s, e, t) && HandlerOf(e) == Some(id)
    ensures id in s.handlers && Beside(s, t, id)
  {
    assert Possible(su, s, e);
    HandlerMoves(su, s, e, id);
  }

  /** Only poller `n` moved among handlers and pollers. */
  ghost predicate BesidePoller(s: State, t: State, n: Name) {
    t.handlers == s.handlers && n in t.pollers && t.pollers == s.pollers[n := t.pollers[n]]
  }

  lemma PollerTurns(su: Setup, s: State, e: Event, t: State, n: Name)
    requires Turn(su, s, e, t) && PollerOf(e) == Some(n)
    ensures n in s.pollers && BesidePoller(s, t, n)
  {
    assert Possible(su, s, e);
  }

  lemma ElapseTurns(su: Setup, s: State, e: Event, t: State)
    requires Turn(su, s, e, t) && e.Elapse?
    ensures (t.backends, t.rr, t.registry, t.handlers, t.pollers) ==
            (s.backends, s.rr, s.registry, s.handlers, s.pollers)
  {
    assert Possible(su, s, e);
  }

  lemma ArriveTurns(su: Setup, s: State, e: Event, t: State)
    requires Turn(su, s, e, t) && e.Arrive?
    ensures e.id !in s.handlers && t == s.(handlers := s.handlers[e.id := NEW_HANDLER])
  {
    assert Possible(su, s, e);
  }

  lemma HandlerIdles(su: Setup, s: State, e: Event)
    requires HandlerOf(e).Some? && !Possible(su, s, e)
    ensures Step(su, s, e) == s
  {
  }

  lemma PollerIdles(su: Setup, s: State, e: Event)
    requires PollerOf(e).Some? && !Possible(su, s, e) && s.pollers.Keys == set n | n in su.names
    ensures Step(su, s, e) == s
  {
  }

  /** An event that is not possible in a reachable state leaves it alone. */
  lemma ImpossibleIsIdle(su: Setup, s: State, e: Event)
    requires Runs.Reachable(su, s) && !Possible(su, s, e)
    ensures Step(su, s, e) == s
  {
    if HandlerOf(e).Some? {
      HandlerIdles(su, s, e);
    } else if PollerOf(e).Some? {
      ConfiguredPollers(su, s);
      PollerIdles(su, s, e);
    }
  }

  lemma ConfiguredPollers(su: Setup, s: State)
    requires Runs.Reachable(su, s)
    ensures s.pollers.Keys == set n | n in su.names
  {
    var events :| s == Run(su, events);
    Guarantees.PollersAreConfigured(su, events);
  }

  /** Each of the events is possible where it comes. */
  ghost predicate AllPossible(su: Setup, s: State, events: seq<Event>)
    decreases |events|
  {
    events == [] || (Possible(su, s, events[0]) && AllPossible(su, Step(su, s, events[0]), events[1..]))
  }

  /** From a reachable state the events can happen one after another. */
  ghost predicate Goes(su: Setup, s: State, events: seq<Event>) {
    Runs.Reachable(su, s) && su.select == StartIndex && AllPossible(su, s, events)
  }

  lemma FirstTurns(su: Setup, s: State, events: seq<Event>) returns (t: State)
    requires Goes(su, s, events) && events != []
    ensures Turn(su, s, events[0], t) && Goes(su, t, events[1..])
    ensures Steps(su, s, events) == Steps(su, t, events[1..])
  {
    t := Step(su, s, events[0]);
    Runs.StepIsReachable(su, s, events[0]);
  }

  lemma InitialGoes(su: Setup, events: seq<Event>)
    requires ValidSetup(su) && su.select == StartIndex && AllPossible(su, InitialState(su), events)
    ensures Goes(su, InitialState(su), events) && Steps(su, InitialState(su), events) == Run(su, events)
  {
    assert InitialState(su) == Run(su, []);
    Runs.StepsAreRun(su, [], events);
    assert [] + events == events;
  }

  // ----- wiring -----

  /** Every name has a state of its own, as new. */
  ghost predicate FreshlyBuilt(su: Setup, names: seq<Name>, states: map<Name, BackendState>)
    reads set n | n in states :: states[n]
    reads set n | n in states :: states[n].cache
    reads set n | n in states :: states[n].capacityCache
    reads set n | n in states :: states[n].counter
  {
    && states.Keys == (set n | n in names)
    && (forall n <- states :: n in su.settings && states[n].Abstract() == NewBackend(su.settings[n]))
    && forall m, n | m in states && n in states && m != n :: ApartFrom(states[m], states[n])
  }

  method AddState(
      su: Setup, names: seq<Name>, states: map<Name, BackendState>, name: Name) returns (more: map<Name, BackendState>)
    requires FreshlyBuilt(su, names, states) && name !in states && name in su.settings
    ensures FreshlyBuilt(su, names + [name], more) && name in more && fresh(Stores(more[name]))
            && more == states[name := more[name]]
  {
    var state := new BackendState(su.settings[name]);
    assert forall n <- states :: Stores(state) !! Stores(states[n]);
    more := states[name := state];
  }

  /** One state per configured backend. */
  method BuildStates(su: Setup) returns (states: map<Name, BackendState>)
    requires ValidSetup(su)
    ensures FreshlyBuilt(su, su.names, states) && forall n <- states :: fresh(Stores(states[n]))
  {
    states := map[];
    for i := 0 to |su.names|
      invariant FreshlyBuilt(su, su.names[..i], states) && forall n <- states :: fresh(Stores(states[n]))
    {
      assert su.names[..i + 1] == su.names[..i] + [su.names[i]];
      assert su.names[i] !in su.names[..i];
      states := AddState(su, su.names[..i], states, su.names[i]);
    }
    assert su.names[..|su.names|] == su.names;
  }

  lemma RegisterAllStep(names: seq<Name>, i: nat, defaultName: Name)
    requires i < |names|
    ensures RegisterAll(names[..i + 1], defaultName) ==
            Register(RegisterAll(names[..i], defaultName), names[i], names[i] == defaultName)
  {
    assert names[..i + 1][..i] == names[..i];
  }

  method RegisterNames(names: seq<Name>, defaultName: Name) returns (registry: ModelRegistry)
    requires Distinct(names)
    ensures fresh(registry) && registry.Valid() && registry.ConflictsLogged()
    ensures registry.Abstract() == RegisterAll(names, defaultName)
  {
    registry := new ModelRegistry();
    for i := 0 to |names|
      invariant fresh(registry) && registry.Valid() && registry.ConflictsLogged()
      invariant registry.Abstract() == RegisterAll(names[..i], defaultName) && registry.order == names[..i]
    {
      RegisterAllStep(names, i, defaultName);
      assert names[i] !in names[..i];
      registry.RegisterBackend(names[i], names[i] == defaultName);
    }
    assert names[..|names|] == names;
  }

  /** One poller per backend. */
  method StartPollers(su: Setup, states: map<Name, BackendState>) returns (pollers: map<Name, BackendPoller>)
    requires ValidSetup(su) && states.Keys == set n | n in su.names
    ensures pollers.Keys == states.Keys && fresh(pollers.Values)
    ensures forall n <- pollers ::
              && pollers[n].Valid() && pollers[n].Abstract() == NEW_POLLER
              && pollers[n].su == su && pollers[n].name == n && pollers[n].state == states[n]
  {
    pollers := map[];
    for i := 0 to |su.names|
      invariant pollers.Keys == set n | n in su.names[..i]
      invariant forall n <- pollers ::
                  && n in states && fresh(pollers[n]) && pollers[n].Valid() && pollers[n].Abstract() == NEW_POLLER
                  && pollers[n].su == su && pollers[n].name == n && pollers[n].state == states[n]
    {
      var name := su.names[i];
      assert su.names[..i + 1] == su.names[..i] + [name];
      assert name in states;
      var poller := new BackendPoller(su, name, states[name]);
      pollers := pollers[name := poller];
    }
    assert su.names[..|su.names|] == su.names;
  }

  method PoolOf(su: Setup, states: map<Name, BackendState>) returns (pool: Pool)
    requires FreshlyBuilt(su, su.names, states)
    ensures pool.states == states && pool.Separate()
    ensures forall o <- pool.footprint :: exists n <- states :: o in Stores(states[n])
    ensures FreshlyBuilt(su, su.names, states)
  {
    pool := new Pool(states);
  }

  method BuildPool(su: Setup) returns (pool: Pool)
    requires ValidSetup(su)
    ensures pool.Separate() && fresh(pool.footprint)
    ensures pool.states.Keys == (set n | n in su.names)
    ensures forall n <- pool.states :: n in su.settings && pool.states[n].Abstract() == NewBackend(su.settings[n])
  {
    var states := BuildStates(su);
    pool := PoolOf(su, states);
  }

  /** A state before any event. */
  ghost predicate Initial(su: Setup, s: State)
    requires ValidSetup(su)
  {
    && s.backends.Keys == (set n | n in su.names)
    && (forall n <- s.backends :: s.backends[n] == NewBackend(su.settings[n]))
    && s.pollers.Keys == (set n | n in su.names) && (forall n <- s.pollers :: s.pollers[n] == NEW_POLLER)
    && (s.rr, s.handlers) == (map[], map[]) && s.registry == RegisterAll(su.names, su.defaultName)
  }

  lemma InitialStateIsInitial(su: Setup)
    requires ValidSetup(su)
    ensures Initial(su, InitialState(su))
  {
  }

  /** What handlers and pollers share, as new. */
  method BuildApp(su: Setup, ghost s: State) returns (app: AppState)
    requires ValidSetup(su) && Initial(su, s)
    ensures app.su == su && app.Apart() && app.Shows(s)
    ensures app.pool.states.Keys == (set n | n in su.names)
    ensures fresh(app.pool.footprint) && fresh(app.registry) && fresh(app.routing)
  {
    var registry := RegisterNames(su.names, su.defaultName);
    var routing := new RoutingState();
    var pool := BuildPool(su);
    pool.StandsFor(s.backends);
    app := new AppState(su, pool, registry, routing);
  }

  /** The pollers of the app's backends. */
  method StartAll(su: Setup, app: AppState, ghost s: State) returns (pollers: map<Name, BackendPoller>)
    requires ValidSetup(su) && Initial(su, s) && app.su == su && app.Apart()
             && app.pool.states.Keys == (set n | n in su.names)
    requires app.Shows(s)
    ensures fresh(pollers.Values) && app.Shows(s) && pollers.Keys == s.pollers.Keys
            && pollers.Values !! app.pool.footprint
    ensures forall n <- pollers :: app.Polls(n, pollers[n]) && app.ShowsPoller(s, n, pollers[n])
  {
    ghost var shown := app.Shown();
    pollers := StartPollers(su, app.pool.states);
    assert app.Shown() == shown;
  }

  method Assemble(su: Setup, ghost s: State) returns (g: Gateway)
    requires ValidSetup(su) && Initial(su, s)
    ensures g.app.su == su && g.Apart() && g.Represents(s)
    ensures fresh(g) && fresh(g.pollers.Values) && g.handlers == map[]
    ensures fresh(g.app.pool.footprint) && fresh(g.app.registry) && fresh(g.app.routing)
  {
    var app := BuildApp(su, s);
    var pollers := StartAll(su, app, s);
    g := new Gateway(app, pollers, s);
  }

  /** The program as it starts. */
  method Start(su: Setup) returns (g: Gateway)
    requires ValidSetup(su)
    ensures g.app.su == su && g.Apart() && g.Represents(InitialState(su))
    ensures fresh(g) && fresh(g.pollers.Values) && g.handlers == map[]
    ensures fresh(g.app.pool.footprint) && fresh(g.app.registry) && fresh(g.app.routing)
  {
    InitialStateIsInitial(su);
    g := Assemble(su, InitialState(su));
  }

  class Gateway {
    const app: AppState
    var handlers: map<Id, GenerationHandler>
    var pollers: map<Name, BackendPoller>

    /** No two objects are one, and none is a store of the pool. */
    ghost predicate Apart()
      reads this
    {
      && app.Apart() && this !in app.pool.footprint
      && handlers.Values !! app.pool.footprint && pollers.Values !! app.pool.footprint
      && (forall i, j | i in handlers && j in handlers && i != j :: handlers[i] != handlers[j])
      && (forall n <- pollers :: app.Polls(n, pollers[n]))
    }

    /** Every handler but `id` stands for its entry. */
    ghost predicate OthersShow(s: State, id: Id)
      reads this, set i | i in handlers && i != id :: handlers[i]
    {
      forall i <- handlers | i != id :: app.ShowsHandler(s, i, handlers[i])
    }

    ghost predicate HandlersShow(s: State)
      reads this, handlers.Values
    {
      forall i <- handlers :: app.ShowsHandler(s, i, handlers[i])
    }

    ghost predicate OtherPollersShow(s: State, n: Name)
      reads this, set m | m in pollers && m != n :: pollers[m]
    {
      forall m <- pollers | m != n :: app.ShowsPoller(s, m, pollers[m])
    }

    ghost predicate PollersShow(s: State)
      reads this, pollers.Values
    {
      forall n <- pollers :: app.ShowsPoller(s, n, pollers[n])
    }

    /** The objects stand for the state. */
    ghost predicate Represents(s: State)
      requires Apart()
      reads this, app.pool.footprint, app.registry, app.routing, handlers.Values, pollers.Values
    {
      && handlers.Keys == s.handlers.Keys && pollers.Keys == s.pollers.Keys
      && app.Shows(s) && HandlersShow(s) && PollersShow(s)
    }

    constructor (app: AppState, pollers: map<Name, BackendPoller>, ghost s: State)
      requires app.Apart() && app.Shows(s) && s.handlers == map[] && pollers.Keys == s.pollers.Keys
      requires pollers.Values !! app.pool.footprint
      requires forall n <- pollers :: app.Polls(n, pollers[n]) && app.ShowsPoller(s, n, pollers[n])
      ensures this.app == app && this.pollers == pollers && handlers == map[] && Apart() && Represents(s)
    {
      this.app, this.pollers, handlers := app, pollers, map[];
    }

    /** Handler `id`'s object carries its event out; every other object is as it was. */
    method CarryHandler(id: Id, e: Event, ghost s: State, ghost t: State)
      requires Apart() && Represents(s) && Turn(app.su, s, e, t) && HandlerOf(e) == Some(id) && id in handlers
      modifies handlers[id], app.pool.footprint, app.routing
      ensures unchanged(this) && app.Shows(t) && app.ShowsHandler(t, id, handlers[id])
      ensures OthersShow(s, id) && PollersShow(s)
    {
      assert OthersShow(s, id);
      app.HandlerTurn(handlers[id], e, s, t, id);
    }

    /** The objects stand for `t` when only handler `id` moved since they stood for `s`. */
    lemma HandlerMoved(s: State, t: State, id: Id)
      requires Apart() && id in handlers && handlers.Keys == s.handlers.Keys && pollers.Keys == s.pollers.Keys
      requires OthersShow(s, id) && PollersShow(s) && Beside(s, t, id)
      requires app.Shows(t) && app.ShowsHandler(t, id, handlers[id])
      ensures Represents(t)
    {
    }

    method HandlerEvent(id: Id, e: Event, ghost s: State, ghost t: State)
      requires Apart() && Represents(s) && Turn(app.su, s, e, t) && HandlerOf(e) == Some(id) && id in handlers
      modifies handlers[id], app.pool.footprint, app.routing
      ensures unchanged(this) && Apart() && Represents(t)
    {
      CarryHandler(id, e, s, t);
      HandlerTurns(app.su, s, e, t, id);
      HandlerMoved(s, t, id);
    }

    /** Poller `n`'s object carries its event out. */
    method CarryPoller(n: Name, e: Event, ghost s: State, ghost t: State)
      requires Apart() && Represents(s) && Turn(app.su, s, e, t) && PollerOf(e) == Some(n) && n in pollers
      modifies pollers[n], app.pool.footprint, app.registry
      ensures unchanged(this) && app.Shows(t) && app.ShowsPoller(t, n, pollers[n])
    {
      app.PollerTurn(pollers[n], e, s, t, n);
    }

    lemma OtherPoller(n: Name)
      requires Apart() && n in pollers
      ensures forall m <- pollers | m != n :: pollers[m] != pollers[n] && pollers[m] !in app.pool.footprint
    {
    }

    /** Every other poller is as it was. */
    method CarryPollerAlone(n: Name, e: Event, ghost s: State, ghost t: State)
      requires Apart() && Represents(s) && Turn(app.su, s, e, t) && PollerOf(e) == Some(n) && n in pollers
      modifies pollers[n], app.pool.footprint, app.registry
      ensures unchanged(this) && app.Shows(t) && app.ShowsPoller(t, n, pollers[n])
      ensures forall m <- pollers | m != n :: unchanged(pollers[m])
    {
      OtherPoller(n);
      CarryPoller(n, e, s, t);
    }

    /** So is every handler. */
    method CarryPollerUntouched(n: Name, e: Event, ghost s: State, ghost t: State)
      requires Apart() && Represents(s) && Turn(app.su, s, e, t) && PollerOf(e) == Some(n) && n in pollers
      modifies pollers[n], app.pool.footprint, app.registry
      ensures unchanged(this) && app.Shows(t) && app.ShowsPoller(t, n, pollers[n])
      ensures forall m <- pollers | m != n :: unchanged(pollers[m])
      ensures forall i <- handlers :: unchanged(handlers[i])
    {
      CarryPollerAlone(n, e, s, t);
    }

    /** So they still stand for their entries. */
    method CarryPollerOnly(n: Name, e: Event, ghost s: State, ghost t: State)
      requires Apart() && Represents(s) && Turn(app.su, s, e, t) && PollerOf(e) == Some(n) && n in pollers
      modifies pollers[n], app.pool.footprint, app.registry
      ensures unchanged(this) && app.Shows(t) && app.ShowsPoller(t, n, pollers[n])
      ensures OtherPollersShow(s, n) && HandlersShow(s)
    {
      CarryPollerUntouched(n, e, s, t);
    }

    lemma PollerMoved(s: State, t: State, n: Name)
      requires Apart() && n in pollers && handlers.Keys == s.handlers.Keys && pollers.Keys == s.pollers.Keys
      requires OtherPollersShow(s, n) && HandlersShow(s) && BesidePoller(s, t, n)
      requires app.Shows(t) && app.ShowsPoller(t, n, pollers[n])
      ensures Represents(t)
    {
    }

    method PollerEvent(n: Name, e: Event, ghost s: State, ghost t: State)
      requires Apart() && Represents(s) && Turn(app.su, s, e, t) && PollerOf(e) == Some(n) && n in pollers
      modifies pollers[n], app.pool.footprint, app.registry
      ensures unchanged(this) && Apart() && Represents(t)
    {
      CarryPollerOnly(n, e, s, t);
      PollerTurns(app.su, s, e, t, n);
      PollerMoved(s, t, n);
    }

    method AddHandler(id: Id)
      requires Apart() && id !in handlers
      modifies this
      ensures Apart() && pollers == old(pollers)
      ensures id in handlers && handlers == old(handlers)[id := handlers[id]] && fresh(handlers[id])
      ensures handlers[id].Valid() && handlers[id].Abstract() == NEW_HANDLER
      ensures fresh(handlers.Values - old(handlers.Values))
    {
      var handler := new GenerationHandler();
      handlers := handlers[id := handler];
    }

    /** Every other object is as it was. */
    method AddHandlerOnly(id: Id, ghost s: State)
      requires Apart() && Represents(s) && id !in handlers
      modifies this
      ensures Apart() && pollers == old(pollers)
      ensures id in handlers && handlers == old(handlers)[id := handlers[id]] && fresh(handlers[id])
      ensures (handlers[id].Valid(), handlers[id].Abstract()) == (true, NEW_HANDLER)
      ensures fresh(handlers.Values - old(handlers.Values))
      ensures app.Shows(s) && OthersShow(s, id) && PollersShow(s)
    {
      AddHandler(id);
    }

    lemma HandlerAdded(s: State, t: State, id: Id)
      requires Apart() && id in handlers && handlers.Keys == s.handlers.Keys + {id} && pollers.Keys == s.pollers.Keys
      requires t == s.(handlers := s.handlers[id := NEW_HANDLER])
      requires (handlers[id].Valid(), handlers[id].Abstract()) == (true, NEW_HANDLER)
      requires app.Shows(s) && OthersShow(s, id) && PollersShow(s)
      ensures Represents(t)
    {
    }

    /** A new request gets an object of its own. */
    method Arrive(id: Id, ghost s: State, ghost t: State)
      requires Apart() && Represents(s) && id !in handlers && t == s.(handlers := s.handlers[id := NEW_HANDLER])
      modifies this
      ensures pollers == old(pollers) && fresh(handlers.Values - old(handlers.Values))
      ensures Apart() && Represents(t)
    {
      AddHandlerOnly(id, s);
      HandlerAdded(s, t, id);
    }

    method PerformHandler(e: Event, ghost s: State, ghost t: State)
      requires Apart() && Represents(s) && Turn(app.su, s, e, t) && HandlerOf(e).Some?
      modifies handlers.Values, app.pool.footprint, app.routing
      ensures unchanged(this) && Apart() && Represents(t)
    {
      HandlerTurns(app.su, s, e, t, HandlerOf(e).value);
      HandlerEvent(HandlerOf(e).value, e, s, t);
    }

    method PerformPoller(e: Event, ghost s: State, ghost t: State)
      requires Apart() && Represents(s) && Turn(app.su, s, e, t) && PollerOf(e).Some?
      modifies pollers.Values, app.pool.footprint, app.registry
      ensures unchanged(this) && Apart() && Represents(t)
    {
      PollerTurns(app.su, s, e, t, PollerOf(e).value);
      PollerEvent(PollerOf(e).value, e, s, t);
    }

    method PerformOther(e: Event, ghost s: State, ghost t: State)
      requires Apart() && Represents(s) && Turn(app.su, s, e, t) && (e.Elapse? || e.Arrive?)
      modifies this
      ensures pollers == old(pollers) && fresh(handlers.Values - old(handlers.Values))
      ensures Apart() && Represents(t)
    {
      if e.Elapse? {
        ElapseTurns(app.su, s, e, t);
      } else {
        ArriveTurns(app.su, s, e, t);
        Arrive(e.id, s, t);
      }
    }

    /** Any event: the objects stand for the machine's next state. */
    method Perform(e: Event, ghost s: State, ghost t: State)
      requires Apart() && Represents(s) && Turn(app.su, s, e, t)
      modifies this, handlers.Values, pollers.Values, app.pool.footprint, app.registry, app.routing
      ensures pollers == old(pollers) && fresh(handlers.Values - old(handlers.Values))
      ensures Apart() && Represents(t)
    {
      if HandlerOf(e).Some? {
        PerformHandler(e, s, t);
      } else if PollerOf(e).Some? {
        PerformPoller(e, s, t);
      } else {
        PerformOther(e, s, t);
      }
    }

    /** The first of some events. */
    method PerformFirst(events: seq<Event>, ghost s: State) returns (ghost t: State)
      requires Apart() && Represents(s) && Goes(app.su, s, events) && events != []
      modifies this, handlers.Values, pollers.Values, app.pool.footprint, app.registry, app.routing
      ensures pollers == old(pollers) && fresh(handlers.Values - old(handlers.Values))
      ensures Apart() && Represents(t) && Goes(app.su, t, events[1..])
      ensures Steps(app.su, s, events) == Steps(app.su, t, events[1..])
    {
      t := FirstTurns(app.su, s, events);
      Perform(events[0], s, t);
    }

    /** Events one after another. */
    method Drive(events: seq<Event>, ghost s: State)
      requires Apart() && Represents(s) && Goes(app.su, s, events)
      modifies this, handlers.Values, pollers.Values, app.pool.footprint, app.registry, app.routing
      ensures Apart() && Represents(Steps(app.su, s, events))
      decreases |events|
    {
      if events != [] {
        ghost var t := PerformFirst(events, s);
        Drive(events[1..], t);
      }
    }
  }

  /** The program from its start on: whatever events happen, its objects stand for the state they lead to. */
  method RunProgram(su: Setup, events: seq<Event>) returns (g: Gateway)
    requires ValidSetup(su) && su.select == StartIndex && AllPossible(su, InitialState(su), events)
    ensures g.app.su == su && g.Apart() && g.Represents(Run(su, events))
  {
    g := Start(su);
    InitialGoes(su, events);
    g.Drive(events, InitialState(su));
  }

  /** What is proved of reachable states holds of the objects: whenever backend `n`'s cache is fresh, its
      counter is unanchored or not negative. */
  lemma CounterObjectsAreNotOversubscribed(g: Gateway, s: State, n: Name)
    requires g.Apart() && g.Represents(s) && Runs.Reachable(g.app.su, s) && n in g.app.su.names
    ensures n in g.app.pool.states &&
            var b := g.app.pool.states[n];
            b.counter.tokens.Some? && b.cache.fetchedAt.Some?
            && s.now - b.cache.fetchedAt.value <= g.app.su.staleAfter ==>
              0 <= b.counter.tokens.value
  {
    PollerIsWired(g.app.su, s, n);
    assert n in g.app.pool.Abstract();
    assert g.app.pool.states[n].Abstract() == s.backends[n];
    Guarantees.FreshIsNotOversubscribed(g.app.su, s, n);
  }

  /** And a handler object that has answered did so by the exhaustion rule, with its response stored. */
  lemma HandlerObjectsAnswerByTheRule(g: Gateway, s: State, id: Id)
    requires g.Apart() && g.Represents(s) && Runs.Reachable(g.app.su, s) && id in g.handlers
    requires g.handlers[id].phase.Done?
    ensures Guarantees.Classified(g.handlers[id].Abstract())
    ensures g.handlers[id].response == Some(g.handlers[id].phase.response)
  {
    assert g.app.ShowsHandler(s, id, g.handlers[id]);
    Guarantees.ExhaustionRule(g.app.su, s, id);
  }
}
