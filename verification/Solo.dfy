/** The snapshot's lone request is a run of the machine: its own events alone, with the clock standing still. */
module Solo {
  import opened Wrappers
  import opened Routing
  import opened Backends
  import opened Walk
  import opened Gate
  import opened Snapshot
  import opened Generation
  import opened Refinement
  import Turns = RoundRobinTurns

  /** An event of request `id`'s own handler. */
  predicate Own(e: Event, id: Id) {
    (e.ReadBody? || e.Answered? || e.Released?) && e.id == id
  }

  /** Nothing but request `id`, what it charges and the round-robin indices moved; the clock stood still. */
  ghost predicate StoodBy(s: State, t: State, id: Id) {
    t.now == s.now && Beside(s, t, id)
  }

  /** The events, all of them request `id`'s own, take it from `s` to this handler and these backends, and
      advance the indices as its end says. */
  ghost predicate Leads(su: Setup, s: State, id: Id, events: seq<Event>, end: (Handler, map<Name, Backend>)) {
    && (forall e <- events :: Own(e, id))
    && Arrives(s, Steps(su, s, events), id, end)
  }

  ghost predicate Arrives(s: State, t: State, id: Id, end: (Handler, map<Name, Backend>)) {
    StoodBy(s, t, id) && t.handlers[id] == end.0 && t.backends == end.1 && t.rr == Advanced(s.rr, end.0)
  }

  lemma StoodByOn(s: State, t: State, u: State, id: Id)
    requires StoodBy(s, t, id) && StoodBy(t, u, id)
    ensures StoodBy(s, u, id)
  {
  }

  lemma LeadsOn(su: Setup, s: State, id: Id, e: Event, end: (Handler, map<Name, Backend>))
    requires Own(e, id) && StoodBy(s, Step(su, s, e), id) && Step(su, s, e).rr == s.rr
    requires exists rest :: Leads(su, Step(su, s, e), id, rest, end)
    ensures exists events :: Leads(su, s, id, events, end)
  {
    var t := Step(su, s, e);
    var rest :| Leads(su, t, id, rest, end);
    StepsFirst(su, s, e, rest);
    StoodByOn(s, t, Steps(su, t, rest), id);
    assert Leads(su, s, id, [e] + rest, end);
  }

  lemma StepsFirst(su: Setup, s: State, e: Event, rest: seq<Event>)
    ensures Steps(su, s, [e] + rest) == Steps(su, Step(su, s, e), rest)
  {
    assert ([e] + rest)[1..] == rest;
  }

  lemma LeadsAlready(su: Setup, s: State, id: Id, end: (Handler, map<Name, Backend>))
    requires id in s.handlers && s.handlers[id] == end.0 && s.backends == end.1 && Advanced(s.rr, end.0) == s.rr
    ensures exists events :: Leads(su, s, id, events, end)
  {
    assert Leads(su, s, id, [], end);
  }

  lemma LeadsAtOnce(su: Setup, s: State, id: Id, e: Event, end: (Handler, map<Name, Backend>))
    requires Own(e, id) && Arrives(s, Step(su, s, e), id, end)
    ensures exists events :: Leads(su, s, id, events, end)
  {
    StepsFirst(su, s, e, []);
    assert Leads(su, s, id, [e], end);
  }

  ghost predicate Stops(g: Handler, w: World) {
    && g.candidates != [] && (forall c <- g.candidates :: c in w.backends && c in w.outcomes)
    && (g.phase.Proxying? ==> g.phase.probe.name in g.candidates && |g.trail| < |g.candidates|)
    && (g.phase.Proxying? || g.phase.ReleasingLast? || g.phase.Done?)
    && (g.phase.ReleasingLast? ==> g.trail != [] && !g.phase.response.Forwarded?)
    && (g.phase.Done? ==> !g.phase.response.Forwarded?)
  }

  /** What is left of `Alone` once the walk stopped at `g`. */
  function Finish(g: Handler, w: World): (Handler, map<Name, Backend>)
    requires Stops(g, w)
  {
    if !g.phase.Proxying? then (if g.phase.ReleasingLast? then Release(g) else g, w.backends)
    else if !Fails(w.outcomes[g.phase.probe.name]) then (Receive(g, w.outcomes[g.phase.probe.name]),
        Yielded(w.backends, g))
    else Alone(Resume(Receive(g, w.outcomes[g.phase.probe.name])), Settled(g, w))
  }

  /** The snapshot after a failed request's charge was placed and rolled back. */
  function Settled(g: Handler, w: World): World
    requires g.phase.Proxying? && g.phase.probe.name in w.backends
  {
    w.(backends := SettledIn(Yielded(w.backends, g), g))
  }

  lemma {:induction false} WalkExhausts(h: Handler, backends: map<Name, Backend>, clock: nat -> real, staleAfter: real)
    requires h.candidates != [] && forall c <- h.candidates :: c in backends
    ensures var g := RunWalk(h, backends, clock, staleAfter);
            g.phase.ReleasingLast? ==> g.trail != [] && g.phase.response.TooManyRequests?
    decreases |h.candidates| - |h.trail|
  {
    if |h.trail| < |h.candidates| {
      var probe := ProbeAt(h, backends, clock, |h.trail|);
      var verdict := Evaluate(probe.seen, h.ctx, probe.at, staleAfter);
      if !verdict.dec.allow {
        WalkExhausts(Skip(h, probe, verdict), backends, clock, staleAfter);
      }
    }
  }

  lemma WalkStops(h: Handler, w: World)
    requires h.candidates != [] && forall c <- h.candidates :: c in w.backends && c in w.outcomes
    ensures Stops(RunWalk(h, w.backends, Still(w.now), w.staleAfter), w)
    ensures var g := RunWalk(h, w.backends, Still(w.now), w.staleAfter);
            g.candidates == h.candidates && |h.trail| <= |g.trail|
  {
    RunWalkStops(h, w.backends, Still(w.now), w.staleAfter);
    WalkExhausts(h, w.backends, Still(w.now), w.staleAfter);
  }

  lemma AloneFinishes(h: Handler, w: World)
    requires h.candidates != [] && forall c <- h.candidates :: c in w.backends && c in w.outcomes
    requires Stops(RunWalk(h, w.backends, Still(w.now), w.staleAfter), w)
    ensures Alone(h, w) == Finish(RunWalk(h, w.backends, Still(w.now), w.staleAfter), w)
  {
    var g := RunWalk(h, w.backends, Still(w.now), w.staleAfter);
    if g.phase.Proxying? {
      var n := g.phase.probe.name;
      assert w.backends[n := Charged(w.backends[n], g.phase.charge)][n := RolledBack(Charged(w.backends[n],
          g.phase.charge), g.phase.charge, g.phase.seqBefore)]
          == w.backends[n := RolledBack(Charged(w.backends[n], g.phase.charge), g.phase.charge, g.phase.seqBefore)];
    }
  }

  /** Request `id` is where it stopped, in a state that is the snapshot but for its own charge. */
  ghost predicate At(su: Setup, s: State, id: Id, g: Handler, w: World) {
    && Stops(g, w) && id in s.handlers && s.handlers[id] == g
    && s.now == w.now && su.staleAfter == w.staleAfter
    && s.backends == Yielded(w.backends, g)
    && forall c <- g.candidates :: c in s.ledgers
  }

  lemma WalkOnStays(su: Setup, s: State, id: Id, h: Handler)
    requires Known(s, h)
    ensures var t := WalkOn(su, s, id, h, Still(s.now)); StoodBy(s, t, id) && t.rr == s.rr
  {
    RunWalkStops(h, s.backends, Still(s.now), su.staleAfter);
  }

  lemma FailedStays(su: Setup, s: State, id: Id, u: Upstream)
    requires CanAnswer(s, id, Still(s.now)) && Fails(u)
    ensures var t := OnAnswered(su, s, id, u, Still(s.now)); StoodBy(s, t, id) && t.rr == s.rr
  {
    var h := s.handlers[id];
    var g := Receive(h, u);
    var settled := Settle(s, id, h, g);
    assert StoodBy(s, settled, id) && settled.rr == s.rr;
    if g.phase.Walking? {
      WalkOnStays(su, settled, id, g);
      StoodByOn(s, settled, WalkOn(su, settled, id, g, Still(s.now)), id);
    }
  }

  lemma ServedStays(su: Setup, s: State, id: Id, u: Upstream)
    requires CanAnswer(s, id, Still(s.now)) && !Fails(u)
    ensures var t := OnAnswered(su, s, id, u, Still(s.now)); StoodBy(s, t, id)
  {
  }

  lemma ReleasedStays(su: Setup, s: State, id: Id)
    requires id in s.handlers && (s.handlers[id].phase.Releasing? || s.handlers[id].phase.ReleasingLast?)
    requires Known(s, s.handlers[id]) && s.handlers[id].trail != []
    ensures var t := OnReleased(su, s, id, Still(s.now)); StoodBy(s, t, id) && t.rr == s.rr
  {
    var g := Release(s.handlers[id]);
    if g.phase.Walking? {
      WalkOnStays(su, s, id, g);
    }
  }

  // ----- from one stop to the next -----

  lemma StopCanAnswer(su: Setup, s: State, id: Id, g: Handler, w: World)
    requires At(su, s, id, g, w) && g.phase.Proxying?
    ensures CanAnswer(s, id, Still(s.now))
    ensures SettledIn(s.backends, g) == Settled(g, w).backends
  {
  }

  /** The walk that ran on from `h` stops in the snapshot again. */
  lemma RanOnStops(su: Setup, t: State, id: Id, h: Handler, w: World)
    requires h.candidates != [] && forall c <- h.candidates :: c in w.backends && c in w.outcomes && c in t.ledgers
    requires t.now == w.now && su.staleAfter == w.staleAfter
    requires RanOn(t, id, h, w.backends, Still(w.now), su.staleAfter)
    ensures At(su, t, id, RunWalk(h, w.backends, Still(w.now), w.staleAfter), w)
  {
    WalkStops(h, w);
  }

  lemma ServedLeads(su: Setup, s: State, id: Id, g: Handler, w: World)
    requires At(su, s, id, g, w) && g.phase.Proxying? && !Fails(w.outcomes[g.phase.probe.name])
    ensures exists events :: Leads(su, s, id, events, Finish(g, w))
  {
    var u := w.outcomes[g.phase.probe.name];
    StopCanAnswer(su, s, id, g, w);
    ServedIsStep(su, s, id, u.status, Still(s.now));
    ServedStays(su, s, id, u);
    LeadsAtOnce(su, s, id, Answered(id, u, Still(s.now)), Finish(g, w));
  }

  lemma ReleasingLastLeads(su: Setup, s: State, id: Id, g: Handler, w: World)
    requires At(su, s, id, g, w) && g.phase.ReleasingLast?
    ensures exists events :: Leads(su, s, id, events, Finish(g, w))
  {
    ReleasedIsStep(su, s, id, Still(s.now));
    ReleasedStays(su, s, id);
    LeadsAtOnce(su, s, id, Released(id, Still(s.now)), Finish(g, w));
  }

  lemma FailedWalksOn(su: Setup, s: State, id: Id, g: Handler, w: World)
    requires At(su, s, id, g, w) && g.phase.Proxying? && Fails(w.outcomes[g.phase.probe.name])
    requires Receive(g, w.outcomes[g.phase.probe.name]).phase.Walking?
    ensures var u, v := w.outcomes[g.phase.probe.name], Settled(g, w);
            var t := Step(su, s, Answered(id, u, Still(s.now)));
            && At(su, t, id, RunWalk(Receive(g, u), v.backends, Still(v.now), v.staleAfter), v)
            && StoodBy(s, t, id) && t.rr == s.rr
  {
    var u, v := w.outcomes[g.phase.probe.name], Settled(g, w);
    StopCanAnswer(su, s, id, g, w);
    FailedIsStep(su, s, id, u, Still(s.now));
    FailedStays(su, s, id, u);
    RanOnStops(su, Step(su, s, Answered(id, u, Still(s.now))), id, Receive(g, u), v);
  }

  lemma ReleasedWalksOn(su: Setup, t: State, id: Id, r: Handler, v: World)
    requires r.phase.Releasing? && r.trail != [] && id in t.handlers && t.handlers[id] == r && t.backends == v.backends
    requires r.candidates != [] && forall c <- r.candidates :: c in v.backends && c in v.outcomes && c in t.ledgers
    requires t.now == v.now && su.staleAfter == v.staleAfter
    ensures var after := Step(su, t, Released(id, Still(t.now)));
            && At(su, after, id, RunWalk(Release(r), v.backends, Still(v.now), v.staleAfter), v)
            && StoodBy(t, after, id) && after.rr == t.rr
  {
    ReleasedIsStep(su, t, id, Still(t.now));
    ReleasedStays(su, t, id);
    RanOnStops(su, Step(su, t, Released(id, Still(t.now))), id, Release(r), v);
  }

  lemma FailedHolds(su: Setup, s: State, id: Id, g: Handler, w: World)
    requires At(su, s, id, g, w) && g.phase.Proxying? && Fails(w.outcomes[g.phase.probe.name])
    requires Receive(g, w.outcomes[g.phase.probe.name]).phase.Releasing?
    ensures var u, v := w.outcomes[g.phase.probe.name], Settled(g, w);
            var t, r := Step(su, s, Answered(id, u, Still(s.now))), Receive(g, u);
            && StoodBy(s, t, id) && t.rr == s.rr && t.handlers[id] == r && t.backends == v.backends
            && r.trail != [] && r.candidates == g.candidates
  {
    var u := w.outcomes[g.phase.probe.name];
    StopCanAnswer(su, s, id, g, w);
    FailedIsStep(su, s, id, u, Still(s.now));
    FailedStays(su, s, id, u);
  }

  /** From any stop, the request's own events lead to the end `Alone` computes. */
  lemma {:induction false} FinishIsRun(su: Setup, s: State, id: Id, g: Handler, w: World)
    requires At(su, s, id, g, w)
    ensures exists events :: Leads(su, s, id, events, Finish(g, w))
    decreases |g.candidates| - |g.trail|
  {
    if g.phase.Done? {
      LeadsAlready(su, s, id, Finish(g, w));
    } else if g.phase.ReleasingLast? {
      ReleasingLastLeads(su, s, id, g, w);
    } else if !Fails(w.outcomes[g.phase.probe.name]) {
      ServedLeads(su, s, id, g, w);
    } else {
      FailureIsRun(su, s, id, g, w);
    }
  }

  lemma {:induction false} FailureIsRun(su: Setup, s: State, id: Id, g: Handler, w: World)
    requires At(su, s, id, g, w) && g.phase.Proxying? && Fails(w.outcomes[g.phase.probe.name])
    ensures exists events :: Leads(su, s, id, events, Finish(g, w))
    decreases |g.candidates| - |g.trail|, 0
  {
    var u, v := w.outcomes[g.phase.probe.name], Settled(g, w);
    var r := Receive(g, u);
    ReceiveResult(g, u);
    var h := Resume(r);
    WalkStops(h, v);
    AloneFinishes(h, v);
    var e := Answered(id, u, Still(s.now));
    var t := Step(su, s, e);
    var stop := RunWalk(h, v.backends, Still(v.now), v.staleAfter);
    if r.phase.Walking? {
      FailedWalksOn(su, s, id, g, w);
      FinishIsRun(su, t, id, stop, v);
    } else {
      FailedHolds(su, s, id, g, w);
      ReleasedWalksOn(su, t, id, r, v);
      FinishIsRun(su, Step(su, t, Released(id, Still(t.now))), id, stop, v);
      LeadsOn(su, t, id, Released(id, Still(t.now)), Finish(g, w));
    }
    LeadsOn(su, s, id, e, Finish(g, w));
  }

  // ----- the whole request -----

  /** Request `id` is about to read its body in a state that is the snapshot. */
  ghost predicate Ahead(su: Setup, s: State, id: Id, model: Model, w: World) {
    && su.select == StartIndex && su.staleAfter == w.staleAfter && s.now == w.now && s.backends == w.backends
    && id in s.handlers && s.handlers[id].phase.Reading?
    && var r := ResolveCandidates(su, s.registry, model);
       r.candidates != [] && forall c <- r.candidates :: c in w.backends && c in w.outcomes && c in s.ledgers
  }

  lemma ReadBodyStays(su: Setup, s: State, id: Id, model: Model, ctx: Option<nat>)
    requires id in s.handlers && s.handlers[id].phase.Reading?
    requires var r := ResolveCandidates(su, s.registry, model);
             r.candidates != [] && forall c <- r.candidates :: c in s.backends && c in s.ledgers
    ensures var t := OnReadBody(su, s, id, model, ctx, Still(s.now)); StoodBy(s, t, id) && t.rr == s.rr
  {
    WalkOnStays(su, s, id, Started(su, s, model, ctx, Still(s.now)));
  }

  lemma FirstTryStarts(su: Setup, s: State, id: Id, model: Model, ctx: Option<nat>, w: World)
    requires Ahead(su, s, id, model, w)
    ensures var r, h := ResolveCandidates(su, s.registry, model),
            FirstTry(su, s.registry, s.backends, s.rr, model, ctx, Still(w.now));
            && h.candidates == r.candidates
            && Alone(h, w) == WalkUnder(r, model, ctx, SnapshotViews(r.candidates, w), s.rr, w)
  {
  }

  lemma ReadBodyStops(su: Setup, s: State, id: Id, model: Model, ctx: Option<nat>, w: World, h: Handler)
    requires Ahead(su, s, id, model, w) && h == FirstTry(su, s.registry, s.backends, s.rr, model, ctx, Still(w.now))
    ensures var t := Step(su, s, ReadBody(id, model, ctx, Still(w.now)));
            At(su, t, id, RunWalk(h, w.backends, Still(w.now), w.staleAfter), w) && StoodBy(s, t, id) && t.rr == s.rr
  {
    ReadBodyIsStep(su, s, id, model, ctx, Still(w.now));
    ReadBodyStays(su, s, id, model, ctx);
    FirstTryStarts(su, s, id, model, ctx, w);
    RanOnStops(su, Step(su, s, ReadBody(id, model, ctx, Still(w.now))), id, h, w);
  }

  lemma FirstTryLeads(su: Setup, s: State, id: Id, model: Model, ctx: Option<nat>, w: World, h: Handler)
    requires Ahead(su, s, id, model, w) && h == FirstTry(su, s.registry, s.backends, s.rr, model, ctx, Still(w.now))
    requires h.candidates != [] && forall c <- h.candidates :: c in w.backends && c in w.outcomes
    ensures exists events :: Leads(su, s, id, events, Alone(h, w))
  {
    var e := ReadBody(id, model, ctx, Still(w.now));
    ReadBodyStops(su, s, id, model, ctx, w, h);
    WalkStops(h, w);
    AloneFinishes(h, w);
    FinishIsRun(su, Step(su, s, e), id, RunWalk(h, w.backends, Still(w.now), w.staleAfter), w);
    LeadsOn(su, s, id, e, Alone(h, w));
  }

  /** A request alone in the machine: from any state in which it is about to read its body, its own events, with
      the clock standing still and nothing else moving, lead to exactly the response and backends of the
      snapshot's walk under the policy of its routing entry; the round-robin indices advance iff it was served. */
  lemma AloneIsRun(su: Setup, s: State, id: Id, model: Model, ctx: Option<nat>, w: World)
    requires Ahead(su, s, id, model, w)
    ensures var r := ResolveCandidates(su, s.registry, model);
            exists events :: Leads(su, s, id, events, WalkUnder(r, model, ctx, SnapshotViews(r.candidates, w), s.rr, w))
  {
    var h := FirstTry(su, s.registry, s.backends, s.rr, model, ctx, Still(w.now));
    FirstTryStarts(su, s, id, model, ctx, w);
    FirstTryLeads(su, s, id, model, ctx, w, h);
  }

  /** The events, all of them request `id`'s own, end it like this and leave these indices. */
  ghost predicate LeadsTo(su: Setup, s: State, id: Id, events: seq<Event>, end: Handler, rr: map<Model, nat>) {
    && (forall e <- events :: Own(e, id))
    && var t := Steps(su, s, events);
    StoodBy(s, t, id) && t.handlers[id] == end && t.rr == rr
  }

  lemma LeadsToEnd(su: Setup, s: State, id: Id, end: (Handler, map<Name, Backend>), rr: map<Model, nat>)
    requires (exists events :: Leads(su, s, id, events, end)) && rr == Advanced(s.rr, end.0)
    ensures exists events :: LeadsTo(su, s, id, events, end.0, rr)
  {
    var events :| Leads(su, s, id, events, end);
    assert LeadsTo(su, s, id, events, end.0, rr);
  }

  lemma PlayAppends(
      r: Resolution, model: Model, rr: map<Model, nat>, requests: seq<Turns.Request>, q: Turns.Request)
    requires Turns.Playable(r.candidates, requests) && Covers(q.world, r.candidates)
    ensures Turns.Playable(r.candidates, requests + [q])
    ensures var before := Turns.Play(r, model, rr, requests);
            var end := WalkUnder(r, model, q.ctx, q.views, before.rr, q.world).0;
            Turns.Play(r, model, rr, requests + [q]) == Turns.Played(Advanced(before.rr, end), before.ends + [end])
  {
    assert (requests + [q])[..|requests|] == requests;
  }

  /** So a play of sequential requests is what the machine does: from a state with the indices the play has
      reached, the next request's own events lead to the play's next end and indices. */
  lemma PlayIsRun(
      su: Setup, s: State, id: Id, model: Model, r: Resolution, rr: map<Model, nat>, requests: seq<Turns.Request>,
      q: Turns.Request)
    requires Ahead(su, s, id, model, q.world) && r == ResolveCandidates(su, s.registry, model)
    requires Turns.Playable(r.candidates, requests) && Covers(q.world, r.candidates)
    requires q.views == SnapshotViews(r.candidates, q.world) && s.rr == Turns.Play(r, model, rr, requests).rr
    ensures Turns.Playable(r.candidates, requests + [q])
    ensures exists end ::
              && Turns.Play(r, model, rr, requests + [q]).ends == Turns.Play(r, model, rr, requests).ends + [end]
              && exists events :: LeadsTo(su, s, id, events, end, Turns.Play(r, model, rr, requests + [q]).rr)
  {
    var end := WalkUnder(r, model, q.ctx, q.views, s.rr, q.world);
    PlayAppends(r, model, rr, requests, q);
    AloneIsRun(su, s, id, model, q.ctx, q.world);
    LeadsToEnd(su, s, id, end, Turns.Play(r, model, rr, requests + [q]).rr);
  }
}
