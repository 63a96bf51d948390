/** Every reachable state of the gate satisfies the invariants, whatever the interleaving. */
module Runs {
  import opened Wrappers
  import opened Router
  import opened Routing
  import opened Metrics
  import opened Backends
  import opened Polling
  import opened Walk
  import opened Registry
  import opened Gate
  import opened Invariants

  /** A handler that has not begun its walk knows nothing; any other is on track over configured backends. */
  ghost predicate HandlerOk(su: Setup, h: Handler) {
    && !h.phase.Walking?
    && if h.candidates == [] then (h.phase.Reading? || h.phase == Aborted(None)) && h.trail == [] && h.records == []
       else Underway(su, h)
  }

  ghost predicate Underway(su: Setup, h: Handler) {
    && OnTrack(h) && Judged(h, su.staleAfter, su.settings)
    && Distinct(h.candidates) && forall c <- h.candidates :: c in su.names
  }

  ghost predicate Handled(su: Setup, s: State) {
    forall id <- s.handlers :: HandlerOk(su, s.handlers[id])
  }

  /** The signals of every poller follow its history, and its backend's counter is anchored as it says. */
  ghost predicate PolledAt(s: State, n: Name)
    requires n in s.backends
  {
    && n in s.pollers
    && Levels(s.pollers[n].signals, s.pollers[n].seen)
    && s.backends[n].flags == FlagsOf(s.pollers[n].signals)
    && (s.backends[n].counter.Some? <==> AnchoredBy(s.pollers[n].seen))
  }

  ghost predicate Polled(su: Setup, s: State)
    requires Wired(su, s)
  {
    forall n <- su.names :: PolledAt(s, n)
  }

  /** The round-robin index a model's successful forwards lead to, given the candidate count of each. */
  function RrIndex(counts: seq<nat>): nat {
    if counts == [] then 0 else RrNext(RrIndex(counts[..|counts| - 1]), counts[|counts| - 1])
  }

  function ForwardsOf(s: State, m: Model): seq<nat> {
    if m in s.forwards then s.forwards[m] else []
  }

  ghost predicate Rotated(s: State) {
    forall m: Model :: RrAt(s.rr, m) == RrIndex(ForwardsOf(s, m))
  }

  ghost predicate Inv(su: Setup, s: State) {
    Balanced(su, s) && Handled(su, s) && Polled(su, s) && Rotated(s) && s.registry.order == su.names
  }

  // ----- a walk between two awaits -----

  /** Only the handler, a counter's value and the clock changed. */
  ghost predicate OnlyWalked(su: Setup, s: State, t: State, id: Id)
    requires Wired(su, s) && Wired(su, t)
  {
    && (t.registry, t.rr, t.forwards, t.pollers) == (s.registry, s.rr, s.forwards, s.pollers)
    && id in t.handlers && t.handlers == s.handlers[id := t.handlers[id]]
    && forall n <- su.names ::
       && t.backends[n].flags == s.backends[n].flags
       && t.backends[n].counter.Some? == s.backends[n].counter.Some?
  }

  lemma WalkTimes(h: Handler, clock: nat -> real, now: real, k: nat)
    requires Gate.Runs(clock, now) && k < |h.candidates|
    ensures now <= clock(|h.candidates| + k) <= YieldTime(h, clock)
  {
    assert clock(0) <= clock(|h.candidates| + k);
    assert clock(|h.candidates| + k) <= clock(2 * |h.candidates|);
  }

  /** A handler that ran to its next await: if it stopped at a proxy, at a backend as it is now. */
  ghost predicate Stopped(su: Setup, s: State, g: Handler, now: real) {
    && s.now <= now && !g.phase.Walking?
    && (!g.phase.Proxying? ==> HoldingAt(g).None?)
    && (g.phase.Proxying? ==>
          && g.phase.probe.name in su.names && g.phase.probe.name in s.backends
          && g.phase.probe.seen == s.backends[g.phase.probe.name]
          && s.now <= g.phase.probe.at <= now)
  }

  lemma RunWalkUnderway(su: Setup, s: State, h: Handler, clock: nat -> real)
    requires Wired(su, s) && Underway(su, h) && h.phase.Walking?
    ensures Underway(su, RunWalk(h, s.backends, clock, su.staleAfter))
  {
    RunWalkStops(h, s.backends, clock, su.staleAfter);
    RunWalkKeepsTrack(h, s.backends, clock, su.staleAfter);
    RunWalkJudges(h, s.backends, clock, su.staleAfter, su.settings);
  }

  lemma RunWalkStopped(su: Setup, s: State, h: Handler, clock: nat -> real)
    requires h.candidates != [] && (forall c <- h.candidates :: c in s.backends && c in su.names)
             && Gate.Runs(clock, s.now)
    ensures Stopped(su, s, RunWalk(h, s.backends, clock, su.staleAfter), YieldTime(h, clock))
  {
    var g := RunWalk(h, s.backends, clock, su.staleAfter);
    RunWalkStops(h, s.backends, clock, su.staleAfter);
    WalkTimes(h, clock, s.now, if g.phase.Proxying? then |g.trail| else 0);
    if g.phase.Proxying? {
      assert CandidateAt(h, |g.trail|) in h.candidates;
    }
  }

  lemma YieldKeeps(su: Setup, s: State, id: Id, g: Handler, now: real)
    requires Balanced(su, s) && Stopped(su, s, g, now) && Underway(su, g)
    requires id in s.handlers ==> HoldingAt(s.handlers[id]).None?
    ensures var t := Yield(s, id, g, now); Balanced(su, t) && OnlyWalked(su, s, t, id)
  {
    if g.phase.Proxying? {
      ChargeKeepsBalance(su, s, id, g, now);
    } else {
      PassKeepsBalance(su, s, now);
      PutKeepsBalance(su, s.(now := now), id, g);
    }
  }

  lemma WalkOnKeeps(su: Setup, s: State, id: Id, h: Handler, clock: nat -> real)
    requires Balanced(su, s) && Underway(su, h) && h.phase.Walking? && Gate.Runs(clock, s.now)
    requires id in s.handlers ==> HoldingAt(s.handlers[id]).None?
    ensures var t := WalkOn(su, s, id, h, clock);
            Balanced(su, t) && OnlyWalked(su, s, t, id) && HandlerOk(su, t.handlers[id])
  {
    RunWalkUnderway(su, s, h, clock);
    RunWalkStopped(su, s, h, clock);
    YieldKeeps(su, s, id, RunWalk(h, s.backends, clock, su.staleAfter), YieldTime(h, clock));
  }

  lemma OnlyWalkedKeepsInv(su: Setup, s: State, t: State, id: Id)
    requires Inv(su, s) && Balanced(su, t) && OnlyWalked(su, s, t, id) && HandlerOk(su, t.handlers[id])
    ensures Inv(su, t)
  {
    forall n <- su.names ensures PolledAt(t, n) {
      assert PolledAt(s, n);
    }
    assert forall m: Model :: ForwardsOf(t, m) == ForwardsOf(s, m);
  }

  // ----- the events of a handler -----

  lemma {:induction false} FilterMeans(order: seq<Name>, keep: Name -> bool)
    ensures forall b :: b in Filter(order, keep) <==> b in order && keep(b)
    ensures Distinct(order) ==> Distinct(Filter(order, keep))
  {
    if order == [] {
    } else {
      FilterMeans(order[..|order| - 1], keep);
      assert forall b :: b in order <==> b in order[..|order| - 1] || b == order[|order| - 1];
    }
  }

  /** A request's candidates are distinct configured backends, at least one. */
  lemma ResolvedCandidates(su: Setup, registry: Registry, model: Model)
    requires ValidSetup(su) && registry.order == su.names
    ensures var r := ResolveCandidates(su, registry, model);
            r.candidates != [] && Distinct(r.candidates) && forall c <- r.candidates :: c in su.names
  {
    var serving := Candidates(registry, model);
    OwnersMeans(registry, model, registry.order);
    var order := if model in su.specs then su.specs[model].order else serving;
    FilterMeans(order, b => b in serving);
  }

  /** `a` stands before `b`. */
  ghost predicate Precedes(order: seq<Name>, a: Name, b: Name) {
    exists p, q :: 0 <= p < q < |order| && order[p] == a && order[q] == b
  }

  /** `xs` keeps the order of `order`. */
  ghost predicate KeepsOrder(xs: seq<Name>, order: seq<Name>) {
    forall i, j | 0 <= i < j < |xs| :: Precedes(order, xs[i], xs[j])
  }

  lemma {:induction false} FilterKeepsOrder(order: seq<Name>, keep: Name -> bool)
    ensures KeepsOrder(Filter(order, keep), order)
  {
    if order == [] {
    } else {
      var n := |order| - 1;
      var init := order[..n];
      var xs, ys := Filter(init, keep), Filter(order, keep);
      FilterKeepsOrder(init, keep);
      FilterMeans(init, keep);
      forall i, j | 0 <= i < j < |ys| ensures Precedes(order, ys[i], ys[j]) {
        if j < |xs| {
          assert Precedes(init, xs[i], xs[j]);
          var p, q :| 0 <= p < q < |init| && init[p] == xs[i] && init[q] == xs[j];
          assert order[p] == ys[i] && order[q] == ys[j];
        } else {
          assert xs[i] in init;
          var p :| 0 <= p < |init| && init[p] == xs[i];
          assert order[p] == ys[i] && order[n] == ys[j];
        }
      }
    }
  }

  /** The order that applies to a model: its routing entry's, or all serving backends. */
  function OrderFor(su: Setup, serving: seq<Name>, model: Model): seq<Name> {
    if model in su.specs then su.specs[model].order else serving
  }

  lemma RouteFilters(su: Setup, serving: seq<Name>, model: Model)
    ensures var kept := Filter(OrderFor(su, serving, model), b => b in serving);
            Route(su, serving, model) ==
            if kept == [] then DefaultOnly(su)
            else Resolution(kept, if model in su.specs then su.specs[model] else RoutingSpec(RoundRobin, serving, None))
  {
    if serving == [] {
      var order := OrderFor(su, serving, model);
      var kept := Filter(order, b => b in serving);
      assert kept != [] ==> kept[0] in kept;
      FilterMeans(order, b => b in serving);
    }
  }

  /** The candidates are exactly the serving backends that the model's order names (all of them without an entry),
      in that order and under the entry's policy. */
  ghost predicate Serves(su: Setup, registry: Registry, model: Model, r: Resolution) {
    var order := OrderFor(su, Candidates(registry, model), model);
    && (forall b :: b in r.candidates <==> b in order && b in registry.order && model in OwnedBy(registry, b))
    && KeepsOrder(r.candidates, order)
    && (if model in su.specs then r.spec == su.specs[model]
        else r.spec.policy == RoundRobin && r.spec.thresholdTokens.None?)
  }

  ghost predicate NoneServes(su: Setup, registry: Registry, model: Model) {
    forall b <- OrderFor(su, Candidates(registry, model), model) :: b !in registry.order
        || model !in OwnedBy(registry, b)
  }

  /** A request goes to its model's serving candidates; to the default backend alone only when there is none. */
  lemma CandidatesServe(su: Setup, registry: Registry, model: Model)
    ensures var r := ResolveCandidates(su, registry, model);
            if NoneServes(su, registry, model)
            then r.candidates == [su.defaultName] && r.spec.policy == RoundRobin && r.spec.thresholdTokens.None?
            else Serves(su, registry, model, r)
  {
    var serving := Candidates(registry, model);
    var order := OrderFor(su, serving, model);
    var kept := Filter(order, b => b in serving);
    OwnersMeans(registry, model, registry.order);
    RouteFilters(su, serving, model);
    FilterMeans(order, b => b in serving);
    FilterKeepsOrder(order, b => b in serving);
    assert kept != [] ==> kept[0] in kept;
  }

  lemma StartedUnderway(su: Setup, s: State, model: Model, ctx: Option<nat>, clock: nat -> real)
    requires Wired(su, s) && s.registry.order == su.names
    ensures var r := ResolveCandidates(su, s.registry, model);
            && r.candidates != [] && forall c <- r.candidates :: c in s.backends && c in s.ledgers
    ensures var h := Started(su, s, model, ctx, clock); Underway(su, h) && h.phase.Walking?
  {
    ResolvedCandidates(su, s.registry, model);
    var h := Started(su, s, model, ctx, clock);
    BeginWalkOnTrack(model, ctx, h.candidates, h.i0);
  }

  /** Walking on from a state that differs from one satisfying the invariant only in this handler's doings. */
  lemma WalkOnKeepsInv(su: Setup, s: State, r: State, id: Id, h: Handler, clock: nat -> real)
    requires Inv(su, s) && Balanced(su, r) && (r == s || OnlyWalked(su, s, r, id))
    requires Underway(su, h) && h.phase.Walking? && Gate.Runs(clock, r.now)
    requires id in r.handlers ==> HoldingAt(r.handlers[id]).None?
    ensures Inv(su, WalkOn(su, r, id, h, clock))
  {
    WalkOnKeeps(su, r, id, h, clock);
    AfterWalk(su, s, r, WalkOn(su, r, id, h, clock), id);
  }

  lemma AfterWalk(su: Setup, s: State, r: State, t: State, id: Id)
    requires Inv(su, s) && Balanced(su, r) && (r == s || OnlyWalked(su, s, r, id))
    requires Balanced(su, t) && OnlyWalked(su, r, t, id) && HandlerOk(su, t.handlers[id])
    ensures Inv(su, t)
  {
    assert OnlyWalked(su, s, t, id);
    OnlyWalkedKeepsInv(su, s, t, id);
  }

  lemma StartedWalkKeeps(su: Setup, s: State, id: Id, h: Handler, clock: nat -> real)
    requires Inv(su, s) && id in s.handlers && HoldingAt(s.handlers[id]).None?
    requires Underway(su, h) && h.phase.Walking? && Gate.Runs(clock, s.now)
    ensures Inv(su, WalkOn(su, s, id, h, clock))
  {
    WalkOnKeepsInv(su, s, s, id, h, clock);
  }

  lemma ReadBodyKeeps(su: Setup, s: State, id: Id, model: Model, ctx: Option<nat>, clock: nat -> real)
    requires Inv(su, s)
    ensures Inv(su, OnReadBody(su, s, id, model, ctx, clock))
  {
    if id in s.handlers && s.handlers[id].phase.Reading? && Gate.Runs(clock, s.now) {
      StartedUnderway(su, s, model, ctx, clock);
      var h := Started(su, s, model, ctx, clock);
      StartedWalkKeeps(su, s, id, h, clock);
      assert OnReadBody(su, s, id, model, ctx, clock) == WalkOn(su, s, id, h, clock);
    }
  }

  lemma ReceiveUnderway(su: Setup, h: Handler, u: Upstream)
    requires Underway(su, h) && h.phase.Proxying?
    ensures Underway(su, Receive(h, u))
  {
    ReceiveKeepsTrack(h, u);
    ReceiveJudges(h, u, su.staleAfter, su.settings);
    ReceiveResult(h, u);
  }

  lemma SettleKeeps(su: Setup, s: State, id: Id, u: Upstream)
    requires Balanced(su, s) && id in s.handlers && s.handlers[id].phase.Proxying? && Fails(u)
    requires Underway(su, s.handlers[id])
    ensures s.handlers[id].phase.probe.name in su.names
    ensures var t := Settle(s, id, s.handlers[id], Receive(s.handlers[id], u));
            Balanced(su, t) && OnlyWalked(su, s, t, id)
  {
    var h := s.handlers[id];
    ReceiveResult(h, u);
    assert CandidateAt(h, |h.trail|) in h.candidates;
    SettleKeepsBalance(su, s, id, Receive(h, u));
    SettleOnlyWalks(su, s, id, Receive(h, u));
  }

  lemma SettleOnlyWalks(su: Setup, s: State, id: Id, g: Handler)
    requires Wired(su, s) && id in s.handlers && s.handlers[id].phase.Proxying?
             && s.handlers[id].phase.probe.name in su.names
    ensures var t := Settle(s, id, s.handlers[id], g); Wired(su, t) && OnlyWalked(su, s, t, id)
  {
  }

  lemma FailureKeeps(su: Setup, s: State, id: Id, u: Upstream, clock: nat -> real)
    requires Inv(su, s) && id in s.handlers && s.handlers[id].phase.Proxying? && Fails(u) && Gate.Runs(clock, s.now)
    requires s.handlers[id].phase.probe.name in s.backends && s.handlers[id].phase.probe.name in s.ledgers
    requires Known(s, s.handlers[id])
    ensures Inv(su, OnAnswered(su, s, id, u, clock))
  {
    assert HandlerOk(su, s.handlers[id]);
    SettleKeeps(su, s, id, u);
    ReceiveUnderway(su, s.handlers[id], u);
    ReceiveResult(s.handlers[id], u);
    var g := Receive(s.handlers[id], u);
    var settled := Settle(s, id, s.handlers[id], g);
    if g.phase.Walking? {
      WalkOnKeepsInv(su, s, settled, id, g, clock);
    } else {
      OnlyWalkedKeepsInv(su, s, settled, id);
    }
  }

  lemma RotatesOn(s: State, id: Id, g: Handler)
    requires Rotated(s)
    ensures Rotated(Forward(s, id, g))
  {
    RrIndexStep(ForwardsOf(s, g.model), |g.candidates|);
    forall m: Model ensures RrAt(Forward(s, id, g).rr, m) == RrIndex(ForwardsOf(Forward(s, id, g), m)) {
      assert RrAt(s.rr, m) == RrIndex(ForwardsOf(s, m));
    }
  }

  lemma RrIndexStep(counts: seq<nat>, n: nat)
    ensures RrIndex(counts + [n]) == RrNext(RrIndex(counts), n)
  {
    assert (counts + [n])[..|counts|] == counts;
  }

  /** The routing indices and their history play no part in the books or the signals. */
  lemma RoutingIsApart(su: Setup, s: State, t: State)
    requires Inv(su, s) && Rotated(t) && t == s.(rr := t.rr, forwards := t.forwards)
    ensures Inv(su, t)
  {
    forall n <- su.names, i: Id ensures LinkedAt(t, n, i) {
      assert LinkedAt(s, n, i);
    }
    forall n <- su.names ensures PolledAt(t, n) {
      assert PolledAt(s, n);
    }
  }

  lemma ServiceKeeps(su: Setup, s: State, id: Id, u: Upstream)
    requires Inv(su, s) && id in s.handlers && s.handlers[id].phase.Proxying? && !Fails(u)
    requires s.handlers[id].candidates != []
    ensures Inv(su, Forward(s, id, Receive(s.handlers[id], u)))
  {
    var g := Receive(s.handlers[id], u);
    ReceiveUnderway(su, s.handlers[id], u);
    ReceiveResult(s.handlers[id], u);
    PutKeeps(su, s, id, g);
    RotatesOn(s, id, g);
    RoutingIsApart(su, s.(handlers := s.handlers[id := g]), Forward(s, id, g));
  }

  lemma AnsweredKeeps(su: Setup, s: State, id: Id, u: Upstream, clock: nat -> real)
    requires Inv(su, s)
    ensures Inv(su, OnAnswered(su, s, id, u, clock))
  {
    if id in s.handlers && s.handlers[id].phase.Proxying? && Known(s, s.handlers[id]) && Gate.Runs(clock, s.now)
       && s.handlers[id].phase.probe.name in s.backends && s.handlers[id].phase.probe.name in s.ledgers
    {
      if Fails(u) {
        FailureKeeps(su, s, id, u, clock);
      } else {
        ServiceKeeps(su, s, id, u);
      }
    }
  }

  lemma PutKeeps(su: Setup, s: State, id: Id, h: Handler)
    requires Inv(su, s) && !h.phase.Proxying? && HandlerOk(su, h)
    requires id !in s.handlers ==> HoldingAt(h).None?
    requires id in s.handlers ==> HoldingAt(h) == HoldingAt(s.handlers[id]) && h.ctx == s.handlers[id].ctx
    ensures Inv(su, s.(handlers := s.handlers[id := h]))
  {
    PutKeepsBalance(su, s, id, h);
    OnlyWalkedKeepsInv(su, s, s.(handlers := s.handlers[id := h]), id);
  }

  lemma ReleasedKeeps(su: Setup, s: State, id: Id, clock: nat -> real)
    requires Inv(su, s)
    ensures Inv(su, OnReleased(su, s, id, clock))
  {
    if id in s.handlers && (s.handlers[id].phase.Releasing? || s.handlers[id].phase.ReleasingLast?)
       && Known(s, s.handlers[id]) && s.handlers[id].trail != [] && Gate.Runs(clock, s.now)
    {
      var h := s.handlers[id];
      var g := Release(h);
      ReleaseKeepsTrack(h);
      assert Underway(su, g);
      if g.phase.Walking? {
        WalkOnKeepsInv(su, s, s, id, g, clock);
      } else {
        PutKeeps(su, s, id, g);
      }
    }
  }

  lemma FailedKeeps(su: Setup, s: State, id: Id)
    requires Inv(su, s)
    ensures Inv(su, OnFailed(s, id))
  {
    if id in s.handlers && Waiting(s.handlers[id]) {
      var h := s.handlers[id];
      if h.candidates != [] {
        AbortKeepsTrack(h);
      }
      PutKeeps(su, s, id, Abort(h));
    }
  }

  // ----- the events of a poller -----

  lemma FetchedKeeps(su: Setup, s: State, name: Name, fetch: Fetch, t1: real, t2: real, t3: real)
    requires Inv(su, s)
    ensures Inv(su, OnFetched(su, s, name, fetch, t1, t2, t3))
  {
    if name in su.names && s.pollers[name].phase.Fetching? && s.now <= t1 <= t2 <= t3 {
      FetchIsCoherent(fetch);
      PollKeepsInv(su, s, OnFetched(su, s, name, fetch, t1, t2, t3), name, PollOf(fetch), t1, t2);
    }
  }

  lemma PollKeepsInv(su: Setup, s: State, t: State, name: Name, o: Poll, t1: real, t2: real)
    requires Inv(su, s) && name in su.names && s.now <= t1 <= t2 <= t.now && CoherentPoll(o)
    requires name in s.pollers && name in t.pollers && t.pollers == s.pollers[name := t.pollers[name]]
    requires t.pollers[name].signals == Signal(s.pollers[name].signals, o)
             && t.pollers[name].seen == s.pollers[name].seen + [o]
    requires t.backends ==
             s.backends[name := Refresh(s.backends[name], o, t1, t2).(flags := FlagsOf(t.pollers[name].signals))]
    requires t.ledgers == s.ledgers[name := RefreshLedger(s.ledgers[name], s.backends[name], o)]
    requires (t.handlers, t.registry, t.rr, t.forwards) == (s.handlers, s.registry, s.rr, s.forwards)
    ensures Inv(su, t)
  {
    PollKeepsBalance(su, s, t, name, o, t1, t2, FlagsOf(t.pollers[name].signals));
    assert PolledAt(s, name);
    PollKeepsPolled(s, t, name, o, t1, t2);
    OtherPollersKeep(su, s, t, name);
    WalksKeep(su, s, t);
  }

  /** Every other poller and its backend are as they were. */
  lemma OtherPollersKeep(su: Setup, s: State, t: State, name: Name)
    requires Wired(su, s) && Wired(su, t) && Polled(su, s) && name in su.names && PolledAt(t, name)
    requires name in t.pollers && t.pollers == s.pollers[name := t.pollers[name]]
             && t.backends == s.backends[name := t.backends[name]]
    ensures Polled(su, t)
  {
    forall n <- su.names | n != name ensures PolledAt(t, n) {
      assert PolledAt(s, n);
      assert t.backends[n] == s.backends[n] && t.pollers[n] == s.pollers[n];
    }
  }

  /** The handlers and the round-robin indices are as they were. */
  lemma WalksKeep(su: Setup, s: State, t: State)
    requires Handled(su, s) && Rotated(s) && (t.handlers, t.rr, t.forwards) == (s.handlers, s.rr, s.forwards)
    ensures Handled(su, t) && Rotated(t)
  {
    assert forall m: Model :: ForwardsOf(t, m) == ForwardsOf(s, m);
  }

  lemma PollKeepsPolled(s: State, t: State, name: Name, o: Poll, t1: real, t2: real)
    requires name in s.backends && PolledAt(s, name) && name in t.pollers && name in t.backends
    requires t.pollers[name].signals == Signal(s.pollers[name].signals, o)
             && t.pollers[name].seen == s.pollers[name].seen + [o]
    requires t.backends[name] == Refresh(s.backends[name], o, t1, t2).(flags := FlagsOf(t.pollers[name].signals))
    ensures PolledAt(t, name)
  {
    SignalKeepsLevels(s.pollers[name].signals, s.pollers[name].seen, o);
    AnchoredByStep(s.pollers[name].seen, o);
    RefreshMovesSequence(s.backends[name], EMPTY_LEDGER, o, t1, t2);
  }

  /** The books, the walks and the pollers' signals are as they were. */
  ghost predicate OnlyPollersMoved(s: State, t: State) {
    && s.now <= t.now && t.registry.order == s.registry.order
    && (t.backends, t.ledgers, t.handlers, t.rr, t.forwards) == (s.backends, s.ledgers, s.handlers, s.rr, s.forwards)
    && forall n <- s.pollers ::
       && n in t.pollers && t.pollers[n].signals == s.pollers[n].signals
       && t.pollers[n].seen == s.pollers[n].seen
  }

  /** Discovery, waking and the clock touch neither the books nor the walks. */
  lemma ElsewhereKeeps(su: Setup, s: State, t: State)
    requires Inv(su, s) && OnlyPollersMoved(s, t)
    ensures Inv(su, t)
  {
    PassKeepsBalance(su, s, t.now);
    forall n <- su.names, i: Id ensures LinkedAt(t, n, i) {
      assert LinkedAt(s.(now := t.now), n, i);
    }
    forall n <- su.names ensures PolledAt(t, n) {
      assert PolledAt(s, n);
    }
    assert forall m: Model :: ForwardsOf(t, m) == ForwardsOf(s, m);
  }

  // ----- every run -----

  lemma DiscoveredKeeps(su: Setup, s: State, name: Name, models: Option<seq<Model>>)
    requires Inv(su, s)
    ensures Inv(su, OnDiscovered(su, s, name, models))
  {
    var t := OnDiscovered(su, s, name, models);
    DiscoveredMoves(su, s, name, models);
    ElsewhereKeeps(su, s, t);
  }

  lemma DiscoveredMoves(su: Setup, s: State, name: Name, models: Option<seq<Model>>)
    ensures OnlyPollersMoved(s, OnDiscovered(su, s, name, models))
  {
  }

  lemma WokeKeeps(su: Setup, s: State, name: Name)
    requires Inv(su, s)
    ensures Inv(su, OnWoke(s, name))
  {
    var t := OnWoke(s, name);
    WokeMoves(s, name);
    ElsewhereKeeps(su, s, t);
  }

  lemma WokeMoves(s: State, name: Name)
    ensures OnlyPollersMoved(s, OnWoke(s, name))
  {
  }

  lemma ElapseMoves(su: Setup, s: State, seconds: real)
    ensures OnlyPollersMoved(s, Step(su, s, Elapse(seconds)))
  {
  }

  lemma ArriveKeeps(su: Setup, s: State, id: Id)
    requires Inv(su, s) && id !in s.handlers
    ensures Inv(su, s.(handlers := s.handlers[id := NEW_HANDLER]))
  {
    PutKeeps(su, s, id, NEW_HANDLER);
  }

  lemma HandlerStepKeepsInv(su: Setup, s: State, e: Event)
    requires Inv(su, s) && (e.Arrive? || e.ReadBody? || e.Answered? || e.Released? || e.Failed?)
    ensures Inv(su, Step(su, s, e))
  {
    match e
    case Arrive(id) => if id !in s.handlers { ArriveKeeps(su, s, id); }
    case ReadBody(id, model, ctx, clock) => ReadBodyKeeps(su, s, id, model, ctx, clock);
    case Answered(id, u, clock) => AnsweredKeeps(su, s, id, u, clock);
    case Released(id, clock) => ReleasedKeeps(su, s, id, clock);
    case Failed(id) => FailedKeeps(su, s, id);
  }

  lemma FetchStepKeepsInv(su: Setup, s: State, e: Event)
    requires Inv(su, s) && e.Fetched?
    ensures Inv(su, Step(su, s, e))
  {
    FetchedKeeps(su, s, e.name, e.fetch, e.t1, e.t2, e.t3);
  }

  lemma ElapseStepKeepsInv(su: Setup, s: State, e: Event)
    requires Inv(su, s) && e.Elapse?
    ensures Inv(su, Step(su, s, e))
  {
    var t := Step(su, s, e);
    ElapseMoves(su, s, e.seconds);
    ElsewhereKeeps(su, s, t);
  }

  lemma DiscoveryStepKeepsInv(su: Setup, s: State, e: Event)
    requires Inv(su, s) && e.Discovered?
    ensures Inv(su, Step(su, s, e))
  {
    DiscoveredKeeps(su, s, e.name, e.models);
  }

  lemma WakeStepKeepsInv(su: Setup, s: State, e: Event)
    requires Inv(su, s) && e.Woke?
    ensures Inv(su, Step(su, s, e))
  {
    WokeKeeps(su, s, e.name);
  }

  lemma StepKeepsInv(su: Setup, s: State, e: Event)
    requires Inv(su, s)
    ensures Inv(su, Step(su, s, e))
  {
    match e
    case Elapse(_) => ElapseStepKeepsInv(su, s, e);
    case Fetched(_, _, _, _, _) => FetchStepKeepsInv(su, s, e);
    case Discovered(_, _) => DiscoveryStepKeepsInv(su, s, e);
    case Woke(_) => WakeStepKeepsInv(su, s, e);
    case _ => HandlerStepKeepsInv(su, s, e);
  }

  lemma {:induction false} RegisteredInOrder(names: seq<Name>, defaultName: Name)
    ensures RegisterAll(names, defaultName).order == names
    ensures forall n <- names :: IsDefault(RegisterAll(names, defaultName), n) <==> n == defaultName
  {
    if names == [] {
    } else {
      RegisteredInOrder(names[..|names| - 1], defaultName);
    }
  }

  lemma InitialBalanced(su: Setup)
    requires ValidSetup(su)
    ensures Balanced(su, InitialState(su))
  {
  }

  lemma InitialInv(su: Setup)
    requires ValidSetup(su)
    ensures Inv(su, InitialState(su))
  {
    InitialBalanced(su);
    RegisteredInOrder(su.names, su.defaultName);
    forall n <- su.names ensures PolledAt(InitialState(su), n) {
      InitialPolled(su, n);
    }
  }

  lemma InitialPolled(su: Setup, n: Name)
    requires ValidSetup(su) && n in su.names
    ensures PolledAt(InitialState(su), n)
  {
  }

  /** The invariants hold after any sequence of events. */
  lemma {:induction false} RunKeepsInv(su: Setup, events: seq<Event>)
    requires ValidSetup(su)
    ensures Inv(su, Run(su, events))
  {
    if events == [] {
      InitialInv(su);
    } else {
      RunKeepsInv(su, events[..|events| - 1]);
      StepKeepsInv(su, Run(su, events[..|events| - 1]), events[|events| - 1]);
    }
  }

  /** Some run ends in `s`. */
  ghost predicate Reachable(su: Setup, s: State) {
    ValidSetup(su) && exists events :: s == Run(su, events)
  }

  /** Every reachable state satisfies the invariants. */
  lemma ReachableInv(su: Setup, s: State)
    requires Reachable(su, s)
    ensures Inv(su, s)
  {
    var events :| s == Run(su, events);
    RunKeepsInv(su, events);
  }

  lemma StepIsReachable(su: Setup, s: State, e: Event)
    requires Reachable(su, s)
    ensures Reachable(su, Step(su, s, e))
  {
    var events :| s == Run(su, events);
    RunOn(su, events, e);
  }

  lemma RunOn(su: Setup, events: seq<Event>, e: Event)
    requires ValidSetup(su)
    ensures Run(su, events + [e]) == Step(su, Run(su, events), e)
  {
    assert (events + [e])[..|events|] == events;
  }

  /** Events from a run's end on are a longer run. */
  lemma {:induction false} StepsAreRun(su: Setup, before: seq<Event>, events: seq<Event>)
    requires ValidSetup(su)
    ensures Steps(su, Run(su, before), events) == Run(su, before + events)
    decreases |events|
  {
    if events == [] {
      assert before + events == before;
    } else {
      RunOn(su, before, events[0]);
      StepsAreRun(su, before + [events[0]], events[1..]);
      FirstMoves(before, events);
    }
  }

  lemma FirstMoves<T>(before: seq<T>, events: seq<T>)
    requires events != []
    ensures before + [events[0]] + events[1..] == before + events
  {
  }
}
