/**
 The whole gate as a state machine: any number of request handlers, one poller per backend, and the
 clock. Each event runs one handler or one poller from one await to the next; the clock may advance
 anywhere. A run is any sequence of events.
 */
module Gate {
  import opened Wrappers
  import opened Numbers
  import opened Router
  import opened Routing
  import opened Metrics
  import opened Backends
  import opened Polling
  import opened Walk
  import opened Registry

  /** How a request's first candidate is picked: from its candidates and routing entry, its model and
      size, the candidates' views, and the round-robin indices. `StartIndex` is the program's. */
  type Selector = (Resolution, Model, Option<nat>, map<Name, CandidateView>, map<Model, nat>) -> nat

  /** What the configuration fixes. The invariants hold whatever the selector picks. */
  datatype Setup = Setup(
    names: seq<Name>, defaultName: Name, staleAfter: real, refreshAfter: real,
    settings: map<Name, Settings>, explicit: map<Name, seq<Model>>, specs: map<Model, RoutingSpec>, select: Selector)

  ghost predicate ValidSetup(su: Setup) {
    && su.names != [] && Distinct(su.names) && su.defaultName in su.names
    && (forall n <- su.names :: n in su.settings && ValidSettings(su.settings[n]))
    && (forall n <- su.names :: n in su.explicit)
    && (forall m <- su.specs :: Distinct(su.specs[m].order))
    && InRange(su.select)
  }

  ghost predicate InRange(select: Selector) {
    forall r: Resolution, model, ctx, views, rr :: r.candidates != [] ==>
        select(r, model, ctx, views, rr) < |r.candidates|
  }

  // ----- candidate resolution and selection -----

  datatype Resolution = Resolution(candidates: seq<Name>, spec: RoutingSpec)

  function DefaultOnly(su: Setup): Resolution {
    Resolution([su.defaultName], RoutingSpec(RoundRobin, [su.defaultName], None))
  }

  /** The serving backends in the order of the model's routing entry, or the default backend alone. */
  function ResolveCandidates(su: Setup, registry: Registry, model: Model): Resolution {
    Route(su, Candidates(registry, model), model)
  }

  function Route(su: Setup, serving: seq<Name>, model: Model): Resolution {
    if serving == [] then DefaultOnly(su)
    else
      var spec := if model in su.specs then su.specs[model] else RoutingSpec(RoundRobin, serving, None);
      var candidates := Filter(spec.order, b => b in serving);
      if candidates == [] then DefaultOnly(su) else Resolution(candidates, spec)
  }

  /** The selection's snapshot of the first `k` candidates; reading `i` of the clock judges the `i`-th. */
  function ViewsOf(
      candidates: seq<Name>, backends: map<Name, Backend>, clock: nat -> real, staleAfter: real, k: nat
    ): map<Name, CandidateView>
    requires k <= |candidates| && forall c <- candidates :: c in backends
  {
    if k == 0 then map[]
    else
      var view := View(backends[candidates[k - 1]], clock(k - 1), staleAfter);
      ViewsOf(candidates, backends, clock, staleAfter, k - 1)[candidates[k - 1] := view]
  }

  function RrAt(rr: map<Model, nat>, model: Model): nat {
    if model in rr then rr[model] else 0
  }

  function RrOffset(rr: map<Model, nat>, model: Model, n: nat): nat {
    if n == 0 then 0 else RrAt(rr, model) % n
  }

  function RrAdvance(rr: map<Model, nat>, model: Model, n: nat): map<Model, nat> {
    if n == 0 then rr else rr[model := RrNext(RrAt(rr, model), n)]
  }

  function RrNext(index: nat, n: nat): nat {
    if n == 0 then index else (index + 1) % n
  }

  /** Where the walk starts: the selected candidate, rotated by the model's index under round robin. */
  function StartIndex(
      r: Resolution, model: Model, ctx: Option<nat>, views: map<Name, CandidateView>, rr: map<Model, nat>): nat {
    if r.candidates == [] then 0
    else
      var selected := SelectBackend(r.spec, r.candidates, ctx, views).GetOr(0);
      if r.spec.policy == RoundRobin then (selected + RrOffset(rr, model, |r.candidates|)) % |r.candidates|
          else selected
  }

  lemma StartIndexInRange()
    ensures InRange(StartIndex)
  {
    forall r: Resolution, model, ctx, views, rr | r.candidates != []
      ensures StartIndex(r, model, ctx, views, rr) < |r.candidates|
    {
      SelectBackendInRange(r.spec, r.candidates, ctx, views);
    }
  }

  /** The walk starts from the model's index modulo the candidate count under `round_robin`, and otherwise from the
      selected candidate, the first one when `fill` found none. */
  lemma StartIndexMeans(
      r: Resolution, model: Model, ctx: Option<nat>, views: map<Name, CandidateView>, rr: map<Model, nat>)
    requires r.candidates != []
    ensures var i := StartIndex(r, model, ctx, views, rr);
            if r.spec.policy == RoundRobin then i == (if model in rr then rr[model] else 0) % |r.candidates|
            else match SelectBackend(r.spec, r.candidates, ctx, views)
                 case Some(k) => i == k
                 case None => i == 0
  {
    if r.spec.policy == RoundRobin {
      OthersSelect(r.spec, r.candidates, ctx, views);
      ModuloModulo(RrAt(rr, model), |r.candidates|);
    }
  }

  // ----- states and events -----

  datatype PollerPhase = Fetching | Discovering | Sleeping

  /** A poller between two awaits; `seen` is every fetch outcome so far. */
  datatype Poller = Poller(
    phase: PollerPhase, signals: Signals, seen: seq<Poll>, lastDiscovery: Option<real>, discoveryOk: bool,
        warnedOrder: set<Model>)

  const NEW_POLLER := Poller(Fetching, NO_SIGNALS, [], None, true, {})

  /** `forwards` lists, per model, the candidate count of every successful forward so far. */
  datatype State = State(
    now: real, backends: map<Name, Backend>, ledgers: map<Name, Ledger>, registry: Registry,
    rr: map<Model, nat>, forwards: map<Model, seq<nat>>, handlers: map<Id, Handler>, pollers: map<Name, Poller>)

  datatype Event =
    | Elapse(seconds: real)
    | Arrive(id: Id)
    | ReadBody(id: Id, model: Model, ctx: Option<nat>, clock: nat -> real)
    | Answered(id: Id, upstream: Upstream, clock: nat -> real)
    | Released(id: Id, clock: nat -> real)
    | Failed(id: Id)
    | Fetched(name: Name, fetch: Fetch, t1: real, t2: real, t3: real)
    | Discovered(name: Name, models: Option<seq<Model>>)
    | Woke(name: Name)

  function RegisterAll(names: seq<Name>, defaultName: Name): Registry {
    if names == [] then EMPTY_REGISTRY
    else
      var last := names[|names| - 1];
      Register(RegisterAll(names[..|names| - 1], defaultName), last, last == defaultName)
  }

  ghost function InitialState(su: Setup): State
    requires ValidSetup(su)
  {
    State(0.0,
          map n | n in su.names :: NewBackend(su.settings[n]),
          map n | n in su.names :: EMPTY_LEDGER,
          RegisterAll(su.names, su.defaultName),
          map[], map[], map[],
          map n | n in su.names :: NEW_POLLER)
  }

  /** The clock never runs backwards. */
  ghost predicate Runs(clock: nat -> real, from: real) {
    from <= clock(0) && forall i: nat, j: nat | i <= j :: clock(i) <= clock(j)
  }

  // ----- one handler between two awaits -----

  /** The time at which a walk over `h`'s candidates yields. */
  function YieldTime(h: Handler, clock: nat -> real): real {
    clock(2 * |h.candidates|)
  }

  /** The handler stops: at the proxy with its charge placed, or without one. */
  function Yield(s: State, id: Id, h: Handler, now: real): State
    requires h.phase.Proxying? ==> h.phase.probe.name in s.backends && h.phase.probe.name in s.ledgers
  {
    if h.phase.Proxying? then
      var n := h.phase.probe.name;
      s.(now := now,
         backends := s.backends[n := Charged(s.backends[n], h.phase.charge)],
         ledgers := s.ledgers[n := ChargedLedger(s.ledgers[n], s.backends[n], id, h.phase.charge)],
         handlers := s.handlers[id := h])
    else s.(now := now, handlers := s.handlers[id := h])
  }

  /** A failed request's charge is rolled back under the sequence guard. */
  function Settle(s: State, id: Id, h: Handler, g: Handler): State
    requires h.phase.Proxying? && h.phase.probe.name in s.backends && h.phase.probe.name in s.ledgers
  {
    var n := h.phase.probe.name;
    s.(backends := s.backends[n := RolledBack(s.backends[n], h.phase.charge, h.phase.seqBefore)],
       ledgers := s.ledgers[n := SettledLedger(s.ledgers[n], s.backends[n], id, h.phase.seqBefore)],
       handlers := s.handlers[id := g])
  }

  /** A handler that is `Walking` runs on to its next await. */
  function WalkOn(su: Setup, s: State, id: Id, h: Handler, clock: nat -> real): State
    requires h.candidates != [] && forall c <- h.candidates :: c in s.backends && c in s.ledgers
  {
    RunWalkStops(h, s.backends, clock, su.staleAfter);
    Yield(s, id, RunWalk(h, s.backends, clock, su.staleAfter), YieldTime(h, clock))
  }

  ghost predicate Known(s: State, h: Handler) {
    h.candidates != [] && forall c <- h.candidates :: c in s.backends && c in s.ledgers
  }

  function Started(su: Setup, s: State, model: Model, ctx: Option<nat>, clock: nat -> real): Handler
    requires var r := ResolveCandidates(su, s.registry, model);
             r.candidates != [] && forall c <- r.candidates :: c in s.backends
  {
    var r := ResolveCandidates(su, s.registry, model);
    var views := ViewsOf(r.candidates, s.backends, clock, su.staleAfter, |r.candidates|);
    BeginWalk(model, ctx, r.candidates, su.select(r, model, ctx, views, s.rr))
  }

  ghost function OnReadBody(su: Setup, s: State, id: Id, model: Model, ctx: Option<nat>, clock: nat -> real): State {
    var r := ResolveCandidates(su, s.registry, model);
    if id in s.handlers && s.handlers[id].phase.Reading? && Runs(clock, s.now)
       && r.candidates != [] && (forall c <- r.candidates :: c in s.backends && c in s.ledgers)
    then WalkOn(su, s, id, Started(su, s, model, ctx, clock), clock)
    else s
  }

  /** The round-robin index advances on every successful forward, whatever the policy. */
  function Forward(s: State, id: Id, g: Handler): State {
    var n := |g.candidates|;
    s.(rr := RrAdvance(s.rr, g.model, n),
       forwards := s.forwards[g.model := (if g.model in s.forwards then s.forwards[g.model] else []) + [n]],
       handlers := s.handlers[id := g])
  }

  ghost function OnAnswered(su: Setup, s: State, id: Id, u: Upstream, clock: nat -> real): State {
    if id in s.handlers && s.handlers[id].phase.Proxying? && Known(s, s.handlers[id]) && Runs(clock, s.now)
       && s.handlers[id].phase.probe.name in s.backends && s.handlers[id].phase.probe.name in s.ledgers
    then
      var h := s.handlers[id];
      var g := Receive(h, u);
      if !Fails(u) then Forward(s, id, g)
      else
        var settled := Settle(s, id, h, g);
        if g.phase.Walking? then WalkOn(su, settled, id, g, clock) else settled
    else s
  }

  ghost function OnReleased(su: Setup, s: State, id: Id, clock: nat -> real): State {
    if id in s.handlers && (s.handlers[id].phase.Releasing? || s.handlers[id].phase.ReleasingLast?)
       && Known(s, s.handlers[id]) && s.handlers[id].trail != [] && Runs(clock, s.now)
    then
      var g := Release(s.handlers[id]);
      if g.phase.Walking? then WalkOn(su, s, id, g, clock) else s.(handlers := s.handlers[id := g])
    else s
  }

  predicate Waiting(h: Handler) {
    !h.phase.Done? && !h.phase.Aborted? && !h.phase.Walking?
  }

  function OnFailed(s: State, id: Id): State {
    if id in s.handlers && Waiting(s.handlers[id])
    then s.(handlers := s.handlers[id := Abort(s.handlers[id])])
    else s
  }

  // ----- one poller between two awaits -----

  /** Discovery is due on the first tick and whenever the refresh interval has passed since the last attempt. */
  predicate Due(p: Poller, now: real, refreshAfter: real) {
    p.lastDiscovery.None? || now - p.lastDiscovery.value >= refreshAfter
  }

  /** After the fetch the poller goes on to discovery when it is due, else to sleep. */
  function AfterFetch(p: Poller, o: Poll, now: real, refreshAfter: real): Poller {
    var due := Due(p, now, refreshAfter);
    p.(signals := Signal(p.signals, o), seen := p.seen + [o],
       phase := if due then Discovering else Sleeping,
       lastDiscovery := if due then Some(now) else p.lastDiscovery)
  }

  ghost function OnFetched(su: Setup, s: State, name: Name, fetch: Fetch, t1: real, t2: real, t3: real): State {
    if name in su.names && name in s.pollers && name in s.backends && name in s.ledgers
        && s.pollers[name].phase.Fetching? && s.now <= t1 <= t2 <= t3
    then
      var p, b, l, o := s.pollers[name], s.backends[name], s.ledgers[name], PollOf(fetch);
      s.(now := t3,
         backends := s.backends[name := Refresh(b, o, t1, t2).(flags := FlagsOf(Signal(p.signals, o)))],
         ledgers := s.ledgers[name := RefreshLedger(l, b, o)],
         pollers := s.pollers[name := AfterFetch(p, o, t3, su.refreshAfter)])
    else s
  }

  /** The models of a routing entry that names this backend although it does not serve them. */
  function DeadEntries(su: Setup, name: Name, owned: set<Model>): set<Model> {
    set m | m in su.specs && name in su.specs[m].order && m !in owned
  }

  /** Explicit models are synced whether or not the fetch succeeded, discovered ones only when it did. */
  function OwnedAfter(su: Setup, name: Name, models: Option<seq<Model>>): Option<set<Model>>
    requires name in su.explicit
  {
    if su.explicit[name] != [] then Some(set m | m in su.explicit[name])
    else if models.Some? then Some(set m | m in models.value)
    else None
  }

  /** The poller sleeps after discovery, and has warned about the dead entries of what it synced. */
  function AfterDiscovery(su: Setup, p: Poller, name: Name, models: Option<seq<Model>>): Poller
    requires name in su.explicit
  {
    var owned := OwnedAfter(su, name, models);
    p.(phase := Sleeping, discoveryOk := models.Some?,
       warnedOrder := p.warnedOrder + (if owned.Some? then DeadEntries(su, name, owned.value) else {}))
  }

  /** The registry after discovery. */
  function SyncedBy(su: Setup, r: Registry, name: Name, models: Option<seq<Model>>): Registry
    requires name in su.explicit
  {
    var owned := OwnedAfter(su, name, models);
    if owned.Some? then Synced(r, name, owned.value) else r
  }

  function OnDiscovered(su: Setup, s: State, name: Name, models: Option<seq<Model>>): State {
    if name in s.pollers && s.pollers[name].phase.Discovering? && name in su.explicit
    then s.(registry := SyncedBy(su, s.registry, name, models),
            pollers := s.pollers[name := AfterDiscovery(su, s.pollers[name], name, models)])
    else s
  }

  function OnWoke(s: State, name: Name): State {
    if name in s.pollers && s.pollers[name].phase.Sleeping?
    then s.(pollers := s.pollers[name := s.pollers[name].(phase := Fetching)])
    else s
  }

  // ----- runs -----

  /** The discovery tick: a backend's explicit models are its owned set whatever the fetch gave, otherwise the
      discovered ones when it succeeded, and a failed fetch leaves the registry alone. No other backend's
      set changes. */
  lemma DiscoverySyncs(su: Setup, s: State, name: Name, models: Option<seq<Model>>)
    requires name in s.pollers && s.pollers[name].phase.Discovering? && name in su.explicit
    ensures var r := Step(su, s, Discovered(name, models)).registry;
            && (su.explicit[name] != [] ==> OwnedBy(r, name) == set m | m in su.explicit[name])
            && (su.explicit[name] == [] && models.Some? ==> OwnedBy(r, name) == set m | m in models.value)
            && (su.explicit[name] == [] && models.None? ==> r == s.registry)
            && (r.order, r.defaults) == (s.registry.order, s.registry.defaults)
            && forall other | other != name :: OwnedBy(r, other) == OwnedBy(s.registry, other)
  {
  }

  /** The fetch tick leads to discovery on the first tick and whenever the refresh interval has passed since the
      last attempt, which this one then becomes; otherwise to sleep. */
  lemma DiscoveryFollowsInterval(su: Setup, s: State, name: Name, fetch: Fetch, t1: real, t2: real, t3: real)
    requires name in su.names && name in s.pollers && name in s.backends && name in s.ledgers
    requires s.pollers[name].phase.Fetching? && s.now <= t1 <= t2 <= t3
    ensures var p, q := s.pollers[name], Step(su, s, Fetched(name, fetch, t1, t2, t3)).pollers[name];
            if p.lastDiscovery.None? || t3 - p.lastDiscovery.value >= su.refreshAfter
            then q.phase == Discovering && q.lastDiscovery == Some(t3)
            else q.phase == Sleeping && q.lastDiscovery == p.lastDiscovery
  {
  }

  /** An event that is not possible in a state leaves it alone. */
  ghost function Step(su: Setup, s: State, e: Event): State {
    match e
    case Elapse(seconds) => if seconds >= 0.0 then s.(now := s.now + seconds) else s
    case Arrive(id) => if id in s.handlers then s else s.(handlers := s.handlers[id := NEW_HANDLER])
    case ReadBody(id, model, ctx, clock) => OnReadBody(su, s, id, model, ctx, clock)
    case Answered(id, u, clock) => OnAnswered(su, s, id, u, clock)
    case Released(id, clock) => OnReleased(su, s, id, clock)
    case Failed(id) => OnFailed(s, id)
    case Fetched(name, fetch, t1, t2, t3) => OnFetched(su, s, name, fetch, t1, t2, t3)
    case Discovered(name, models) => OnDiscovered(su, s, name, models)
    case Woke(name) => OnWoke(s, name)
  }

  ghost function Run(su: Setup, events: seq<Event>): State
    requires ValidSetup(su)
  {
    if events == [] then InitialState(su)
    else Step(su, Run(su, events[..|events| - 1]), events[|events| - 1])
  }

  /** The events from any state on. */
  ghost function Steps(su: Setup, s: State, events: seq<Event>): State
    decreases |events|
  {
    if events == [] then s else Steps(su, Step(su, s, events[0]), events[1..])
  }
}
