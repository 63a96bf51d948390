/**
 One backend's poller as the program runs it (`run_poller`, src/gate/poller.py): its local variables, and
 the two halves of a tick between its awaits. Each half is proved against `Polling` and `Gate`.
 */
module PollerTask {
  import opened Wrappers
  import opened Router
  import opened Routing
  import opened Metrics
  import opened Backends
  import opened Polling
  import opened Registry
  import opened Gate
  import opened Caches
  import opened States

  /** The notices about model discovery. */
  datatype DiscoveryNotice = Failing | Recovered

  /** A signal after a call with `v`. */
  function Called<T>(e: Edge<T>, v: T): Edge<T> {
    Edge(v, Some(v), e.calls + [v])
  }

  ghost function Models(pairs: set<(Model, Name)>): set<Model> {
    set p | p in pairs :: p.0
  }

  class BackendPoller {
    const su: Setup
    const name: Name
    const state: BackendState
    var lastEngine: Option<Engine>
    var unavailable: Option<bool>
    var capacityMissing: Option<bool>
    var lastDiscovery: Option<real>
    var discoveryOk: bool
    var warned: set<(Model, Name)>

    /** Where the poller is, every fetch outcome, and the callbacks and log lines so far. */
    ghost var phase: PollerPhase
    ghost var seen: seq<Poll>
    ghost var signals: Signals
    ghost var notices: seq<DiscoveryNotice>
    ghost var orderWarnings: seq<(Model, Name)>

    ghost function Abstract(): Poller
      reads this
    {
      Poller(phase, signals, seen, lastDiscovery, discoveryOk, Models(warned))
    }

    ghost predicate Valid()
      reads this
    {
      && (forall p <- warned :: p.1 == name)
      && signals.engine.last == lastEngine && signals.unavailable.last == unavailable
         && signals.capacityMissing.last == capacityMissing
      && name in su.explicit
      && (forall p :: p in orderWarnings <==> p in warned)
      && (forall i, j | 0 <= i < j < |orderWarnings| :: orderWarnings[i] != orderWarnings[j])
    }

    /** The backend's flags are what the callbacks left. */
    ghost predicate InStep()
      reads this, state
    {
      Flags(state.engine, state.capacityUnavailable, state.metricsUnavailable) == FlagsOf(signals)
    }

    constructor (su: Setup, name: Name, state: BackendState)
      requires name in su.explicit
      ensures Valid() && (this.su, this.name, this.state) == (su, name, state)
      ensures Abstract() == NEW_POLLER && notices == [] && orderWarnings == []
    {
      this.su, this.name, this.state := su, name, state;
      lastEngine, unavailable, capacityMissing, lastDiscovery, discoveryOk, warned := None, None, None, None, true, {};
      phase, seen, signals, notices, orderWarnings := Fetching, [], NO_SIGNALS, [], [];
    }

    /** The fetch half of a tick, up to the next await. */
    method Fetched(fetch: Fetch, t1: real, t2: real, t3: real)
      requires Valid() && InStep() && phase.Fetching?
      modifies this, state, state.cache, state.capacityCache, state.counter
      ensures Valid() && InStep()
      ensures Abstract() == AfterFetch(old(Abstract()), PollOf(fetch), t3, su.refreshAfter)
      ensures state.Abstract() == Refresh(old(state.Abstract()), PollOf(fetch), t1, t2).(flags := FlagsOf(signals))
      ensures (notices, orderWarnings) == old((notices, orderWarnings))
    {
      Observe(fetch, t1, t2);
      var due := DiscoveryDue(t3);
      phase := if due then Discovering else Sleeping;
    }

    /** One fetch outcome: the signals, the caches and the counter. */
    method Observe(fetch: Fetch, t1: real, t2: real)
      requires Valid() && InStep()
      modifies this`signals, this`seen, this`lastEngine, this`unavailable, this`capacityMissing
      modifies state, state.cache, state.capacityCache, state.counter
      ensures Valid() && InStep()
      ensures signals == Signal(old(signals), PollOf(fetch)) && seen == old(seen) + [PollOf(fetch)]
      ensures state.Abstract() == Refresh(old(state.Abstract()), PollOf(fetch), t1, t2).(flags := FlagsOf(signals))
    {
      seen := seen + [PollOf(fetch)];
      if fetch.TransportError? { return; }
      var sample := ReadMetrics(fetch.status, fetch.body);
      SignalSample(sample);
      if sample.observed {
        Store(sample, t1, t2);
      }
    }

    /** The state-change callbacks. */
    method SignalSample(sample: MetricsSample)
      requires Valid() && InStep()
      modifies this`signals, this`lastEngine, this`unavailable, this`capacityMissing
      modifies state`engine, state`metricsUnavailable, state`capacityUnavailable
      ensures Valid() && InStep()
      ensures signals == Signal(old(signals), Some(sample))
      ensures state.Abstract() == old(state.Abstract()).(flags := FlagsOf(signals))
    {
      SignalAvailability(!(sample.observed && sample.engine in {Vllm, Sglang}));
      if sample.observed {
        SignalEngine(sample.engine);
        SignalCapacity(sample.capacityTokens.None?);
      }
    }

    method SignalAvailability(nowUnavailable: bool)
      requires Valid() && InStep()
      modifies this`signals, this`unavailable, state`metricsUnavailable
      ensures Valid() && InStep()
      ensures signals == SignalUnavailable(old(signals), nowUnavailable)
      ensures state.Abstract() == old(state.Abstract()).(flags := FlagsOf(signals))
    {
      if unavailable != Some(nowUnavailable) {
        if nowUnavailable {
          signals := signals.(warnings := signals.warnings + 1);
        }
        state.OnMetricsUnavailable(nowUnavailable);
        signals := signals.(unavailable := Called(signals.unavailable, nowUnavailable));
        unavailable := Some(nowUnavailable);
      }
    }

    method SignalEngine(detected: Engine)
      requires Valid() && InStep()
      modifies this`signals, this`lastEngine, state`engine
      ensures Valid() && InStep()
      ensures signals == old(signals).(engine := Fire(old(signals).engine, detected))
      ensures state.Abstract() == old(state.Abstract()).(flags := FlagsOf(signals))
    {
      if lastEngine != Some(detected) {
        state.OnEngine(detected);
        signals := signals.(engine := Called(signals.engine, detected));
        lastEngine := Some(detected);
      }
    }

    method SignalCapacity(nowMissing: bool)
      requires Valid() && InStep()
      modifies this`signals, this`capacityMissing, state`capacityUnavailable
      ensures Valid() && InStep()
      ensures signals == old(signals).(capacityMissing := Fire(old(signals).capacityMissing, nowMissing))
      ensures state.Abstract() == old(state.Abstract()).(flags := FlagsOf(signals))
    {
      if capacityMissing != Some(nowMissing) {
        state.OnCapacityUnavailable(nowMissing);
        signals := signals.(capacityMissing := Called(signals.capacityMissing, nowMissing));
        capacityMissing := Some(nowMissing);
      }
    }

    /** The caches and the counter, from an observed body. */
    method Store(sample: MetricsSample, t1: real, t2: real)
      requires sample.observed
      modifies state, state.cache, state.capacityCache, state.counter
      ensures state.Abstract() == Refresh(old(state.Abstract()), Some(sample), t1, t2)
    {
      ghost var before := state.Abstract();
      if sample.capacityTokens.None? {
        state.counter.Unanchor();
      }
      if sample.usageFrac.Some? {
        state.cache.Update(sample.usageFrac, t1);
      }
      state.cache.UpdateByModel(sample.byModel, t2);
      if sample.usageFrac.Some? && sample.capacityTokens.Some? {
        state.counter.Reanchor(AnchorRemainingTokens(sample.capacityTokens.value, state.settings.targetFrac,
            sample.usageFrac.value));
        state.OnReanchor();
      }
      state.capacityCache.Update(sample.capacityTokens, t2);
    }

    /** Discovery is due on the first tick and whenever the refresh interval has passed since the last attempt. */
    method DiscoveryDue(now: real) returns (due: bool)
      requires Valid()
      modifies this`lastDiscovery
      ensures Valid() && (due <==> old(lastDiscovery).None? || now - old(lastDiscovery).value >= su.refreshAfter)
      ensures lastDiscovery == if due then Some(now) else old(lastDiscovery)
    {
      due := lastDiscovery.None? || now - lastDiscovery.value >= su.refreshAfter;
      if due {
        lastDiscovery := Some(now);
      }
    }

    /** The discovery half of a tick: explicit models are synced whatever the fetch gave, discovered ones only
        when it succeeded; a failing fetch is noticed once, and so is its recovery. */
    method Discover(registry: ModelRegistry, discovered: Option<seq<Model>>)
      requires Valid() && registry.Valid() && registry.ConflictsLogged() && name in registry.defaults
      modifies this, registry
      ensures Valid() && registry.Valid() && registry.ConflictsLogged()
      ensures Abstract() == AfterDiscovery(su, old(Abstract()), name, discovered)
      ensures registry.Abstract() == SyncedBy(su, old(registry.Abstract()), name, discovered)
      ensures notices == old(notices)
                         + (if discoveryOk == old(discoveryOk) then []
                            else if discoveryOk then [Recovered] else [Failing])
    {
      SyncOwned(registry, discovered);
      NoteDiscovery(discovered.Some?);
      phase := Sleeping;
    }

    /** The poller slept its interval. */
    method Wake()
      requires Valid() && phase.Sleeping?
      modifies this`phase
      ensures Valid() && Abstract() == old(Abstract()).(phase := Fetching)
    {
      phase := Fetching;
    }

    method SyncOwned(registry: ModelRegistry, discovered: Option<seq<Model>>)
      requires Valid() && registry.Valid() && registry.ConflictsLogged() && name in registry.defaults
      modifies this`warned, this`orderWarnings, registry
      ensures Valid() && registry.Valid() && registry.ConflictsLogged()
      ensures var after := AfterDiscovery(su, old(Abstract()), name, discovered);
              Abstract() == old(Abstract()).(warnedOrder := after.warnedOrder)
      ensures registry.Abstract() == SyncedBy(su, old(registry.Abstract()), name, discovered)
    {
      var owned: set<Model>;
      if su.explicit[name] != [] {
        owned := set m | m in su.explicit[name];
      } else if discovered.Some? {
        owned := set m | m in discovered.value;
      } else {
        return;
      }
      var _ := registry.Sync(name, owned);
      WarnOrderViolations(owned);
      DeadModels(old(warned), owned);
    }

    lemma DeadModels(before: set<(Model, Name)>, owned: set<Model>)
      ensures Models(before + Dead(owned)) == Models(before) + DeadEntries(su, name, owned)
    {
      forall m <- DeadEntries(su, name, owned) ensures m in Models(before + Dead(owned)) {
        assert (m, name) in Dead(owned);
      }
    }

    method NoteDiscovery(ok: bool)
      requires Valid()
      modifies this`discoveryOk, this`notices
      ensures Valid() && discoveryOk == ok && Abstract() == old(Abstract()).(discoveryOk := ok)
      ensures notices == old(notices) + (if ok == old(discoveryOk) then [] else if ok then [Recovered] else [Failing])
    {
      if ok && !discoveryOk {
        notices := notices + [Recovered];
      } else if !ok && discoveryOk {
        notices := notices + [Failing];
      }
      discoveryOk := ok;
    }

    /** The routing entries that name this backend although it does not serve their model. */
    ghost function Dead(owned: set<Model>): set<(Model, Name)> {
      set m | m in DeadEntries(su, name, owned) :: (m, name)
    }

    /** One warning per dead entry, ever. */
    method WarnOrderViolations(owned: set<Model>)
      requires Valid()
      modifies this`warned, this`orderWarnings
      ensures Valid() && warned == old(warned) + Dead(owned)
      ensures forall m :: (m, name) in warned <==>
              (m, name) in old(warned) || (m in su.specs && name in su.specs[m].order && m !in owned)
    {
      var models := SortModels(su.specs.Keys);
      for i := 0 to |models|
        invariant Valid()
        invariant forall p :: p in warned <==> p in old(warned) || (p in Dead(owned) && p.0 in models[..i])
      {
        WarnOrder(models[i], owned);
      }
      assert models[..|models|] == models;
      assert forall p <- Dead(owned) :: p.0 in su.specs;
    }

    method WarnOrder(model: Model, owned: set<Model>)
      requires Valid() && model in su.specs
      modifies this`warned, this`orderWarnings
      ensures Valid() && forall p :: p in warned <==> p in old(warned) || (p in Dead(owned) && p.0 == model)
    {
      if name !in su.specs[model].order || model in owned { return; }
      var pair := (model, name);
      if pair in warned { return; }
      warned := warned + {pair};
      orderWarnings := orderWarnings + [pair];
    }
  }
}
