/** Every request ends: what a handler still has before it, and how its own events use it up. */
module Progress {
  import opened Wrappers
  import opened Routing
  import opened Backends
  import opened Walk
  import opened Gate
  import opened Generation
  import opened Refinement
  import opened App
  import opened Program
  import Runs

  /** At most this many of its own events are still to come once the walk has begun: two for every candidate
      not yet visited, one for a response to release. */
  function Remaining(h: Handler): nat {
    var left := if |h.trail| <= |h.candidates| then |h.candidates| - |h.trail| else 0;
    match h.phase
    case Proxying(_, _, _) => 2 * left
    case Releasing => 2 * left + 1
    case ReleasingLast(_) => 1
    case Done(_) => 0
    case Aborted(_) => 0
    case _ => 2 * left + 2
  }

  lemma WalkUsesUp(h: Handler, backends: map<Name, Backend>, clock: nat -> real, staleAfter: real)
    requires h.candidates != [] && (forall c <- h.candidates :: c in backends) && |h.trail| <= |h.candidates|
    ensures var g := RunWalk(h, backends, clock, staleAfter);
            g.candidates == h.candidates && (Remaining(g) <= 1 || Remaining(g) <= 2 * (|h.candidates| - |h.trail|))
  {
    RunWalkStops(h, backends, clock, staleAfter);
  }

  /** What the invariant says about a handler that awaits something. */
  lemma AwaitsInside(su: Setup, s: State, id: Id)
    requires Runs.Reachable(su, s) && id in s.handlers
    ensures var h := s.handlers[id];
            && |h.trail| <= |h.candidates|
            && (h.phase.Proxying? || h.phase.Releasing? ==> |h.trail| < |h.candidates|)
            && (h.candidates == [] ==> h.phase.Reading? || h.phase.Aborted?)
            && (h.phase.Reading? ==> h.candidates == [])
  {
    Runs.ReachableInv(su, s);
    assert Runs.HandlerOk(su, s.handlers[id]);
  }

  /** Reading the body leaves at most two events per candidate; every later event of its own leaves fewer than
      there were. */
  lemma OwnEventProgresses(su: Setup, s: State, e: Event, id: Id)
    requires Runs.Reachable(su, s) && su.select == StartIndex && Possible(su, s, e) && HandlerOf(e) == Some(id)
    ensures id in s.handlers && id in Step(su, s, e).handlers
    ensures var h, g := s.handlers[id], Step(su, s, e).handlers[id];
            if h.phase.Reading? then Remaining(g) <= 2 * |g.candidates|
            else Remaining(g) < Remaining(h) && g.candidates == h.candidates
  {
    AwaitsInside(su, s, id);
    match e
    case ReadBody(_, model, ctx, clock) => ReadProgresses(su, s, id, model, ctx, clock);
    case Answered(_, u, clock) => AnswerProgresses(su, s, id, u, clock);
    case Released(_, clock) => ReleaseProgresses(su, s, id, clock);
    case Failed(_) =>
  }

  lemma ReadProgresses(su: Setup, s: State, id: Id, model: Model, ctx: Option<nat>, clock: nat -> real)
    requires Runs.Reachable(su, s) && su.select == StartIndex && Possible(su, s, ReadBody(id, model, ctx, clock))
    ensures var t := Step(su, s, ReadBody(id, model, ctx, clock));
            id in t.handlers && Remaining(t.handlers[id]) <= 2 * |t.handlers[id].candidates|
  {
    NoHandlerIsStuck(su, s, id, clock);
    assert Known(s, NEW_HANDLER.(candidates := ResolveCandidates(su, s.registry, model).candidates));
    ReadBodyIsStep(su, s, id, model, ctx, clock);
    WalkUsesUp(FirstTry(su, s.registry, s.backends, s.rr, model, ctx, clock), s.backends, clock, su.staleAfter);
  }

  lemma AnswerProgresses(su: Setup, s: State, id: Id, u: Upstream, clock: nat -> real)
    requires Runs.Reachable(su, s) && Possible(su, s, Answered(id, u, clock))
             && |s.handlers[id].trail| < |s.handlers[id].candidates|
    ensures var t := Step(su, s, Answered(id, u, clock));
            && id in t.handlers && Remaining(t.handlers[id]) < Remaining(s.handlers[id])
            && t.handlers[id].candidates == s.handlers[id].candidates
  {
    NoHandlerIsStuck(su, s, id, clock);
    var g, settled := Receive(s.handlers[id], u), SettledIn(s.backends, s.handlers[id]);
    ReceiveResult(s.handlers[id], u);
    if Fails(u) {
      FailedIsStep(su, s, id, u, clock);
      if g.phase.Walking? {
        WalkUsesUp(g, settled, clock, su.staleAfter);
      }
    } else {
      ServedIsStep(su, s, id, u.status, clock);
    }
  }

  lemma ReleaseProgresses(su: Setup, s: State, id: Id, clock: nat -> real)
    requires Runs.Reachable(su, s) && Possible(su, s, Released(id, clock))
             && |s.handlers[id].trail| <= |s.handlers[id].candidates|
    requires s.handlers[id].phase.Releasing? ==> |s.handlers[id].trail| < |s.handlers[id].candidates|
    ensures var t := Step(su, s, Released(id, clock));
            && id in t.handlers && Remaining(t.handlers[id]) < Remaining(s.handlers[id])
            && t.handlers[id].candidates == s.handlers[id].candidates
  {
    NoHandlerIsStuck(su, s, id, clock);
    ReleasedIsStep(su, s, id, clock);
    var g := Release(s.handlers[id]);
    if g.phase.Walking? {
      WalkUsesUp(g, s.backends, clock, su.staleAfter);
    }
  }

  /** Nobody else's event moves a request. */
  lemma OthersLeaveIt(su: Setup, s: State, e: Event, id: Id)
    requires Runs.Reachable(su, s) && su.select == StartIndex && Possible(su, s, e) && HandlerOf(e) != Some(id)
             && id in s.handlers
    ensures id in Step(su, s, e).handlers && Step(su, s, e).handlers[id] == s.handlers[id]
  {
    if HandlerOf(e).Some? {
      HandlerMoves(su, s, e, HandlerOf(e).value);
    } else if PollerOf(e).Some? {
      assert Turn(su, s, e, Step(su, s, e));
      PollerTurns(su, s, e, Step(su, s, e), PollerOf(e).value);
    }
  }

  function OwnEvents(events: seq<Event>, id: Id): nat {
    if events == [] then 0 else (if HandlerOf(events[0]) == Some(id) then 1 else 0) + OwnEvents(events[1..], id)
  }

  /** A request whose walk has begun has at most `Remaining` events of its own before it, whatever else happens,
      and each uses some of it up. */
  lemma {:induction false} RequestsEnd(su: Setup, s: State, events: seq<Event>, id: Id)
    requires Goes(su, s, events) && id in s.handlers && !s.handlers[id].phase.Reading?
    ensures id in Steps(su, s, events).handlers
    ensures OwnEvents(events, id) + Remaining(Steps(su, s, events).handlers[id]) <= Remaining(s.handlers[id])
    decreases |events|
  {
    if events == [] {
    } else {
      var e := events[0];
      var t := FirstTurns(su, s, events);
      assert Possible(su, s, e) && t == Step(su, s, e);
      if HandlerOf(e) == Some(id) {
        OwnEventProgresses(su, s, e, id);
        StaysBegun(su, s, e, id);
      } else {
        OthersLeaveIt(su, s, e, id);
      }
      RequestsEnd(su, t, events[1..], id);
    }
  }

  lemma StaysBegun(su: Setup, s: State, e: Event, id: Id)
    requires Runs.Reachable(su, s) && su.select == StartIndex && Possible(su, s, e) && HandlerOf(e) == Some(id)
    requires id in s.handlers && !s.handlers[id].phase.Reading? && id in Step(su, s, e).handlers
    requires Step(su, s, e).handlers[id].candidates == s.handlers[id].candidates
    ensures !Step(su, s, e).handlers[id].phase.Reading?
  {
    Runs.StepIsReachable(su, s, e);
    AwaitsInside(su, s, id);
    AwaitsInside(su, Step(su, s, e), id);
  }

  /** So a request with `n` candidates ends within `2n + 1` of its own events: its body, then at most two per
      candidate. */
  lemma RequestsEndSoon(su: Setup, s: State, events: seq<Event>, id: Id)
    requires Goes(su, s, events) && events != [] && id in s.handlers && events[0].ReadBody? && events[0].id == id
    ensures id in Steps(su, s, events).handlers && id in Step(su, s, events[0]).handlers
    ensures var n := |Step(su, s, events[0]).handlers[id].candidates|;
            OwnEvents(events, id) + Remaining(Steps(su, s, events).handlers[id]) <= 2 * n + 1
  {
    var e := events[0];
    var t := FirstTurns(su, s, events);
    assert Possible(su, s, e) && t == Step(su, s, e);
    OwnEventProgresses(su, s, e, id);
    HasBegun(su, s, e, id);
    RequestsEnd(su, t, events[1..], id);
  }

  lemma HasBegun(su: Setup, s: State, e: Event, id: Id)
    requires Runs.Reachable(su, s) && su.select == StartIndex && Possible(su, s, e) && e.ReadBody? && e.id == id
    ensures id in Step(su, s, e).handlers && !Step(su, s, e).handlers[id].phase.Reading?
  {
    NoHandlerIsStuck(su, s, id, e.clock);
    assert Known(s, NEW_HANDLER.(candidates := ResolveCandidates(su, s.registry, e.model).candidates));
    ReadBodyIsStep(su, s, id, e.model, e.ctx, e.clock);
    RunWalkStops(FirstTry(su, s.registry, s.backends, s.rr, e.model, e.ctx, e.clock), s.backends, e.clock,
        su.staleAfter);
  }
}
