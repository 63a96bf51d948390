/** What one event of a handler does to the machine's state, in the terms the program's methods speak of. */
module Refinement {
  import opened Wrappers
  import opened Router
  import opened Routing
  import opened Metrics
  import opened Backends
  import opened Polling
  import opened Walk
  import opened Registry
  import opened Gate
  import Runs
  import opened Generation

  /** Handler `id` ran on from `h`, and left the backends as a handler that stops there does. */
  ghost predicate RanOn(
      t: State, id: Id, h: Handler, backends: map<Name, Backend>, clock: nat -> real, staleAfter: real)
    requires h.candidates != [] && forall c <- h.candidates :: c in backends
  {
    && id in t.handlers && t.handlers[id] == RunWalk(h, backends, clock, staleAfter)
    && (t.handlers[id].phase.Proxying? ==> t.handlers[id].phase.probe.name in backends)
    && t.backends == Yielded(backends, t.handlers[id])
  }

  /** Besides the backends and the indices only handler `id` moved. */
  ghost predicate Beside(s: State, t: State, id: Id) {
    && (t.registry, t.pollers) == (s.registry, s.pollers)
    && s.ledgers.Keys <= t.ledgers.Keys
    && id in t.handlers && t.handlers == s.handlers[id := t.handlers[id]]
  }

  lemma BesideOn(s: State, t: State, u: State, id: Id)
    requires Beside(s, t, id) && Beside(t, u, id)
    ensures Beside(s, u, id)
  {
  }

  lemma WalkOnRuns(su: Setup, s: State, id: Id, h: Handler, clock: nat -> real)
    requires Known(s, h)
    ensures var t := WalkOn(su, s, id, h, clock);
            RanOn(t, id, h, s.backends, clock, su.staleAfter) && Beside(s, t, id) && t.rr == s.rr
  {
    RunWalkStops(h, s.backends, clock, su.staleAfter);
  }

  lemma ReadBodyIsStep(su: Setup, s: State, id: Id, model: Model, ctx: Option<nat>, clock: nat -> real)
    requires su.select == StartIndex && id in s.handlers && s.handlers[id].phase.Reading? && Gate.Runs(clock, s.now)
    requires var r := ResolveCandidates(su, s.registry, model);
             r.candidates != [] && forall c <- r.candidates :: c in s.backends && c in s.ledgers
    ensures var t := Step(su, s, ReadBody(id, model, ctx, clock));
            && RanOn(t, id, FirstTry(su, s.registry, s.backends, s.rr, model, ctx, clock), s.backends, clock,
               su.staleAfter)
            && Beside(s, t, id) && t.rr == s.rr
  {
    WalkOnRuns(su, s, id, Started(su, s, model, ctx, clock), clock);
  }

  ghost predicate CanAnswer(s: State, id: Id, clock: nat -> real) {
    && id in s.handlers && s.handlers[id].phase.Proxying? && Known(s, s.handlers[id]) && Gate.Runs(clock, s.now)
    && s.handlers[id].phase.probe.name in s.backends && s.handlers[id].phase.probe.name in s.ledgers
  }

  lemma ServedIsStep(su: Setup, s: State, id: Id, status: int, clock: nat -> real)
    requires CanAnswer(s, id, clock) && status < 500
    ensures var t := Step(su, s, Answered(id, Responded(status), clock));
            && Beside(s, t, id) && t.handlers[id] == Receive(s.handlers[id], Responded(status))
            && t.backends == s.backends && t.rr == RrAdvance(s.rr, s.handlers[id].model, |s.handlers[id].candidates|)
  {
  }

  lemma FailedIsStep(su: Setup, s: State, id: Id, u: Upstream, clock: nat -> real)
    requires CanAnswer(s, id, clock) && Fails(u)
    ensures var t, g, settled := Step(su, s, Answered(id, u, clock)), Receive(s.handlers[id], u),
            SettledIn(s.backends, s.handlers[id]);
            && g.candidates == s.handlers[id].candidates && Beside(s, t, id) && t.rr == s.rr
            && if g.phase.Walking? then RanOn(t, id, g, settled, clock, su.staleAfter)
               else t.handlers[id] == g && t.backends == settled
  {
    var h := s.handlers[id];
    var g := Receive(h, u);
    var settled := Settle(s, id, h, g);
    assert Beside(s, settled, id) && settled.rr == s.rr;
    if g.phase.Walking? {
      WalkOnRuns(su, settled, id, g, clock);
      BesideOn(s, settled, WalkOn(su, settled, id, g, clock), id);
    }
  }

  ghost predicate CanRelease(s: State, id: Id, clock: nat -> real) {
    && id in s.handlers && (s.handlers[id].phase.Releasing? || s.handlers[id].phase.ReleasingLast?)
    && Known(s, s.handlers[id]) && s.handlers[id].trail != [] && Gate.Runs(clock, s.now)
  }

  lemma ReleasedIsStep(su: Setup, s: State, id: Id, clock: nat -> real)
    requires CanRelease(s, id, clock)
    ensures var t, g := Step(su, s, Released(id, clock)), Release(s.handlers[id]);
            && g.candidates == s.handlers[id].candidates && Beside(s, t, id) && t.rr == s.rr
            && if g.phase.Walking? then RanOn(t, id, g, s.backends, clock, su.staleAfter)
               else t.handlers[id] == g && t.backends == s.backends
  {
    var g := Release(s.handlers[id]);
    if g.phase.Walking? {
      WalkOnRuns(su, s, id, g, clock);
    }
  }

  /** The event a handler awaits is possible: whatever the body asks for resolves to configured candidates, an
      awaited answer is from one of them, and a release has something to release. */
  lemma HandlerCanGoOn(su: Setup, s: State, id: Id, clock: nat -> real)
    requires Runs.Inv(su, s) && id in s.handlers && Gate.Runs(clock, s.now)
    ensures var h := s.handlers[id];
            && (h.phase.Reading? ==>
                  forall m :: Known(s, NEW_HANDLER.(candidates := ResolveCandidates(su, s.registry, m).candidates)))
            && (h.phase.Proxying? ==> CanAnswer(s, id, clock))
            && (h.phase.Releasing? || h.phase.ReleasingLast? ==> CanRelease(s, id, clock))
            && !h.phase.Walking?
  {
    var h := s.handlers[id];
    assert Runs.HandlerOk(su, h);
    if h.phase.Reading? {
      forall m ensures Known(s, NEW_HANDLER.(candidates := ResolveCandidates(su, s.registry, m).candidates)) {
        Runs.ResolvedCandidates(su, s.registry, m);
      }
    } else if h.candidates != [] {
      assert CandidateAt(h, |h.trail|) in h.candidates;
    }
  }

  /** So in every reachable state: no guard of the machine excludes an event a handler awaits. */
  lemma NoHandlerIsStuck(su: Setup, s: State, id: Id, clock: nat -> real)
    requires Runs.Reachable(su, s) && id in s.handlers && Gate.Runs(clock, s.now)
    ensures var h := s.handlers[id];
            && (h.phase.Reading? ==>
                  forall m :: Known(s, NEW_HANDLER.(candidates := ResolveCandidates(su, s.registry, m).candidates)))
            && (h.phase.Proxying? ==> CanAnswer(s, id, clock))
            && (h.phase.Releasing? || h.phase.ReleasingLast? ==> CanRelease(s, id, clock))
            && !h.phase.Walking?
  {
    Runs.ReachableInv(su, s);
    HandlerCanGoOn(su, s, id, clock);
  }
}
