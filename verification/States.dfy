/** The per-backend and per-model state the handlers and pollers share (src/gate/app.py). */
module States {
  import opened Wrappers
  import opened Router
  import opened Routing
  import opened Metrics
  import opened Backends
  import opened Caches
  import opened Gate

  class BackendState {
    const settings: Settings
    const cache: MetricsCache
    const capacityCache: CapacityCache
    const counter: KvRemaining
    var anchorSeq: nat
    var engine: Engine
    var capacityUnavailable: bool
    var metricsUnavailable: bool

    /** The backend this state stands for. */
    ghost function Abstract(): Backend
      reads this, cache, capacityCache, counter
    {
      Backend(settings, cache.Contents(), capacityCache.current, counter.tokens, anchorSeq,
              Flags(engine, capacityUnavailable, metricsUnavailable))
    }

    constructor (settings: Settings)
      ensures this.settings == settings && Abstract() == NewBackend(settings)
      ensures fresh(cache) && fresh(capacityCache) && fresh(counter)
    {
      this.settings := settings;
      cache := new MetricsCache();
      capacityCache := new CapacityCache();
      counter := new KvRemaining();
      anchorSeq, engine, capacityUnavailable, metricsUnavailable := 0, Unknown, false, false;
    }

    // The callbacks handed to the backend's poller.

    method OnReanchor()
      modifies this`anchorSeq
      ensures Abstract() == old(Abstract()).(anchorSeq := old(anchorSeq) + 1)
    {
      anchorSeq := anchorSeq + 1;
    }

    method OnEngine(detected: Engine)
      modifies this`engine
      ensures Abstract() == old(Abstract()).(flags := old(Abstract()).flags.(engine := detected))
    {
      engine := detected;
    }

    method OnCapacityUnavailable(unavailable: bool)
      modifies this`capacityUnavailable
      ensures Abstract() == old(Abstract()).(flags := old(Abstract()).flags.(capacityUnavailable := unavailable))
    {
      capacityUnavailable := unavailable;
    }

    method OnMetricsUnavailable(unavailable: bool)
      modifies this`metricsUnavailable
      ensures Abstract() == old(Abstract()).(flags := old(Abstract()).flags.(metricsUnavailable := unavailable))
    {
      metricsUnavailable := unavailable;
    }

    // What a handler does with a backend.

    /** The staleness gate and the two layers. */
    method Judge(ctx: Option<nat>, now: real, staleAfter: real) returns (verdict: Verdict)
      ensures verdict == Evaluate(Abstract(), ctx, now, staleAfter)
    {
      var frac := cache.current;
      if frac.None? || cache.IsStale(staleAfter, now) {
        var tier := ScanTiers(None, ctx, settings.thresholds);
        verdict := Verdict(CombineDecisions(tier, Decision(true, None, None, MetricsUnavailable)), None);
      } else {
        var pct := frac.value * 100.0;
        var tier := ScanTiers(Some(pct), ctx, settings.thresholds);
        verdict := Verdict(CombineDecisions(tier, DecideAuto(counter.tokens, ctx, settings.auto)), Some(pct));
      }
    }

    /** The selection's view of this backend. */
    function Look(now: real, staleAfter: real): (view: CandidateView)
      reads this, cache, capacityCache, counter
      ensures view == View(Abstract(), now, staleAfter)
    {
      var frac := cache.current;
      var stale := frac.None? || cache.IsStale(staleAfter, now);
      CandidateView(if stale then None else frac, counter.tokens, capacityCache.current, settings.auto.tokenMargin)
    }

    /** The charge placed at admission, and the sequence it was placed under. */
    method Admit(ctx: Option<nat>) returns (charge: int, seqBefore: nat)
      modifies counter
      ensures charge == Charge(ctx, settings.auto.tokenMargin) && seqBefore == old(anchorSeq)
      ensures Abstract() == Charged(old(Abstract()), charge)
    {
      charge := Charge(ctx, settings.auto.tokenMargin);
      seqBefore := anchorSeq;
      counter.Take(charge);
    }

    /** The rollback of a failed request's charge, guarded by the sequence. */
    method RollBack(charge: int, seqBefore: nat)
      modifies counter
      ensures Abstract() == RolledBack(old(Abstract()), charge, seqBefore)
    {
      if anchorSeq == seqBefore {
        counter.GiveBack(charge);
      }
    }
  }

  /** The state and the stores it owns. */
  ghost function Stores(b: BackendState): set<object> {
    {b, b.cache, b.capacityCache, b.counter}
  }

  ghost predicate ApartFrom(a: BackendState, b: BackendState) {
    Stores(a) !! Stores(b)
  }

  /** The app's backend states by name; no two share a store. */
  class Pool {
    const states: map<Name, BackendState>
    ghost const footprint: set<object>

    ghost predicate Separate() {
      && (forall n <- states :: Stores(states[n]) <= footprint)
      && forall m, n | m in states && n in states && m != n :: ApartFrom(states[m], states[n])
    }

    constructor (states: map<Name, BackendState>)
      requires forall m, n | m in states && n in states && m != n :: ApartFrom(states[m], states[n])
      ensures this.states == states && Separate()
      ensures forall o <- footprint :: exists n <- states :: o in Stores(states[n])
    {
      this.states := states;
      footprint := set n, o | n in states && o in Stores(states[n]) :: o;
    }

    ghost function Abstract(): map<Name, Backend>
      requires Separate()
      reads footprint
    {
      map n | n in states :: states[n].Abstract()
    }

    lemma StandsFor(backends: map<Name, Backend>)
      requires Separate() && backends.Keys == states.Keys && forall n <- states :: states[n].Abstract() == backends[n]
      ensures Abstract() == backends
    {
    }

    /** When only backend `n` moved, the pool is what it was but for that backend. */
    lemma OnlyOneMoved(before: map<Name, Backend>, n: Name)
      requires Separate() && n in states && before.Keys == states.Keys
      requires forall m <- states | m != n :: states[m].Abstract() == before[m]
      ensures Abstract() == before[n := states[n].Abstract()]
    {
    }

    /** A charge placed at one backend's admission leaves every other backend as it was. */
    method Admit(name: Name, ctx: Option<nat>) returns (charge: int, seqBefore: nat)
      requires Separate() && name in states
      modifies footprint
      ensures var b := old(Abstract())[name];
              && charge == Charge(ctx, b.settings.auto.tokenMargin) && seqBefore == b.anchorSeq
              && Abstract() == old(Abstract())[name := Charged(b, charge)]
    {
      ghost var before := Abstract();
      charge, seqBefore := states[name].Admit(ctx);
      OnlyOneMoved(before, name);
    }

    method RollBack(name: Name, charge: int, seqBefore: nat)
      requires Separate() && name in states
      modifies footprint
      ensures Abstract() == old(Abstract())[name := RolledBack(old(Abstract())[name], charge, seqBefore)]
    {
      ghost var before := Abstract();
      states[name].RollBack(charge, seqBefore);
      OnlyOneMoved(before, name);
    }
  }

  /** The per-model round-robin indices. */
  class RoutingState {
    var rr: map<Model, nat>

    constructor ()
      ensures rr == map[]
    {
      rr := map[];
    }

    function Offset(model: Model, n: nat): (k: nat)
      reads this
      ensures k == RrOffset(rr, model, n) && (n > 0 ==> k < n)
    {
      if n == 0 then 0 else (if model in rr then rr[model] else 0) % n
    }

    method Advance(model: Model, n: nat)
      modifies this
      ensures rr == RrAdvance(old(rr), model, n)
    {
      if n == 0 { return; }
      var index := if model in rr then rr[model] else 0;
      rr := rr[model := (index + 1) % n];
    }
  }
}
