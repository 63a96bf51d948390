/**
 One request walking alone over a frozen snapshot: nothing else runs, the clock stands still, and each
 backend's answer is given. What the policies may and may not change.
 */
module Snapshot {
  import opened Wrappers
  import opened Router
  import opened Routing
  import opened Backends
  import opened Walk
  import opened Gate
  import opened Guarantees

  /** The backends as they are, how each would answer, and the time. */
  datatype World = World(backends: map<Name, Backend>, outcomes: map<Name, Upstream>, now: real, staleAfter: real)

  /** The clock standing still. */
  function Still(now: real): nat -> real {
    _ => now
  }

  ghost predicate Covers(w: World, candidates: seq<Name>) {
    candidates != [] && Distinct(candidates) && forall c <- candidates :: c in w.backends && c in w.outcomes
  }

  /** The handler runs to its end, with the backends it leaves behind. */
  function Alone(h: Handler, w: World): (Handler, map<Name, Backend>)
    requires h.candidates != [] && forall c <- h.candidates :: c in w.backends && c in w.outcomes
    decreases |h.candidates| - |h.trail|
  {
    RunWalkStops(h, w.backends, Still(w.now), w.staleAfter);
    var g := RunWalk(h, w.backends, Still(w.now), w.staleAfter);
    if !g.phase.Proxying? then (if g.phase.ReleasingLast? then Release(g) else g, w.backends)
    else
      var n := g.phase.probe.name;
      var charged := Charged(w.backends[n], g.phase.charge);
      var r := Receive(g, w.outcomes[n]);
      if !Fails(w.outcomes[n]) then (r, w.backends[n := charged])
      else
        var settled := w.backends[n := RolledBack(charged, g.phase.charge, g.phase.seqBefore)];
        Alone(Resume(r), w.(backends := settled))
  }

  /** A discarded response is released at once. */
  function Resume(r: Handler): Handler
    requires r.phase.Releasing? ==> r.candidates != [] && r.trail != []
  {
    if r.phase.Releasing? then Release(r) else r
  }

  /** How a backend answers the request: with the gate's reject, or as given. */
  function AnswerFrom(w: World, ctx: Option<nat>, n: Name): Answer
    requires n in w.backends && n in w.outcomes
  {
    var verdict := Evaluate(w.backends[n], ctx, w.now, w.staleAfter);
    if verdict.dec.allow then AnswerOf(w.outcomes[n]) else Rejected(verdict)
  }

  /** A rejecting or failing candidate leaves the snapshot as it was: a failure's charge is rolled back. */
  lemma AloneSkips(h: Handler, w: World)
    requires h.phase.Walking? && h.candidates != [] && |h.trail| < |h.candidates|
    requires forall c <- h.candidates :: c in w.backends && c in w.outcomes
    ensures var n := CandidateAt(h, |h.trail|);
            var answer := AnswerFrom(w, h.ctx, n);
            var probe := Probe(n, w.backends[n], w.now);
            match answer
            case Rejected(verdict) => Alone(h, w) == Alone(Skip(h, probe, verdict), w)
            case Served(status) =>
              && Alone(h, w).0 == Receive(RunWalk(h, w.backends, Still(w.now), w.staleAfter), Responded(status))
              && Alone(h, w).1 == w.backends[n := Charged(w.backends[n],
                 Charge(h.ctx, w.backends[n].settings.auto.tokenMargin))]
            case _ =>
              var r := Receive(RunWalk(h, w.backends, Still(w.now), w.staleAfter), w.outcomes[n]);
              Alone(h, w) == Alone(Resume(r), w)
  {
    var n := CandidateAt(h, |h.trail|);
    if AnswerFrom(w, h.ctx, n).TransportFailed? || AnswerFrom(w, h.ctx, n).ServerError? {
      var g := RunWalk(h, w.backends, Still(w.now), w.staleAfter);
      var b := w.backends[n];
      assert RolledBack(Charged(b, g.phase.charge), g.phase.charge, g.phase.seqBefore) == b;
      assert w.backends[n := b] == w.backends;
      assert w.(backends := w.backends) == w;
    }
  }

  /** Every visit is of a candidate and answers as the snapshot says. */
  ghost predicate AsGiven(w: World, ctx: Option<nat>, candidates: seq<Name>, trail: seq<Visit>)
    requires Covers(w, candidates)
  {
    forall v <- trail :: v.probe.name in candidates && v.answer == AnswerFrom(w, ctx, v.probe.name)
  }

  /** The outcome of walking alone: every visit answers as the snapshot says, and only a backend that
      served keeps a charge. */
  ghost predicate Plays(h: Handler, w: World, g: Handler, after: map<Name, Backend>)
    requires Covers(w, h.candidates)
  {
    && OnTrack(g) && g.phase.Done?
    && (g.candidates, g.i0, g.ctx, g.model) == (h.candidates, h.i0, h.ctx, h.model)
    && AsGiven(w, h.ctx, h.candidates, g.trail)
    && after == (if g.phase.response.Forwarded?
                 then var n := LastName(g);
                      if n in w.backends then w.backends[n := Charged(w.backends[n],
                          Charge(h.ctx, w.backends[n].settings.auto.tokenMargin))] else w.backends
                 else w.backends)
  }

  function LastName(g: Handler): Name {
    if g.trail == [] then "" else g.trail[|g.trail| - 1].probe.name
  }

  /** A handler whose visits so far answered as the snapshot says. */
  ghost predicate Ready(h: Handler, w: World) {
    && OnTrack(h) && h.phase.Walking? && Covers(w, h.candidates)
    && AsGiven(w, h.ctx, h.candidates, h.trail)
  }

  lemma {:induction false} AlonePlays(h: Handler, w: World)
    requires Ready(h, w)
    ensures var (g, after) := Alone(h, w); Plays(h, w, g, after)
    decreases |h.candidates| - |h.trail|
  {
    if |h.trail| == |h.candidates| {
      AloneConcludes(h, w);
    } else {
      AloneSkips(h, w);
      var n := CandidateAt(h, |h.trail|);
      match AnswerFrom(w, h.ctx, n)
      case Rejected(verdict) =>
        var g := Skip(h, Probe(n, w.backends[n], w.now), verdict);
        SkipIsReady(h, w, verdict);
        AlonePlays(g, w);
      case Served(_) =>
        AloneServed(h, w);
      case _ =>
        FailureIsReady(h, w);
        AlonePlays(Resume(Receive(RunWalk(h, w.backends, Still(w.now), w.staleAfter), w.outcomes[n])), w);
    }
  }

  lemma AloneConcludes(h: Handler, w: World)
    requires Ready(h, w) && |h.trail| == |h.candidates|
    ensures var (g, after) := Alone(h, w); Plays(h, w, g, after)
  {
    AloneAtEnd(h, w);
    ConcludeKeepsTrack(h);
    if Conclude(h).phase.ReleasingLast? {
      ReleaseKeepsTrack(Conclude(h));
    }
  }

  lemma AloneAtEnd(h: Handler, w: World)
    requires Covers(w, h.candidates) && |h.trail| == |h.candidates|
    ensures var g := Conclude(h);
            && Alone(h, w) == (if g.phase.ReleasingLast? then Release(g) else g, w.backends)
            && (g.candidates, g.i0, g.ctx, g.model, g.trail) == (h.candidates, h.i0, h.ctx, h.model, h.trail)
            && (g.phase.ReleasingLast? || g.phase.Done?) && !g.phase.response.Forwarded?
  {
  }

  lemma AloneServed(h: Handler, w: World)
    requires Ready(h, w) && |h.trail| < |h.candidates| && AnswerFrom(w, h.ctx, CandidateAt(h, |h.trail|)).Served?
    ensures var (g, after) := Alone(h, w); Plays(h, w, g, after)
  {
    AloneSkips(h, w);
    AdmittedStops(h, w);
    ServedPlays(h, w, RunWalk(h, w.backends, Still(w.now), w.staleAfter));
  }

  lemma ServedPlays(h: Handler, w: World, g: Handler)
    requires Ready(h, w) && |h.trail| < |h.candidates| && AnswerFrom(w, h.ctx, CandidateAt(h, |h.trail|)).Served?
    requires OnTrack(g) && g.phase.Proxying? && g.phase.probe.name == CandidateAt(h, |h.trail|)
             && g == h.(phase := g.phase)
    ensures var n := g.phase.probe.name;
            Plays(h, w, Receive(g, w.outcomes[n]), w.backends[n := Charged(w.backends[n],
                Charge(h.ctx, w.backends[n].settings.auto.tokenMargin))])
  {
    var u := w.outcomes[g.phase.probe.name];
    ReceiveKeepsTrack(g, u);
    ReceiveResult(g, u);
  }

  lemma SkipIsReady(h: Handler, w: World, verdict: Verdict)
    requires Ready(h, w) && |h.trail| < |h.candidates|
    requires AnswerFrom(w, h.ctx, CandidateAt(h, |h.trail|)) == Rejected(verdict)
    ensures var n := CandidateAt(h, |h.trail|); Ready(Skip(h, Probe(n, w.backends[n], w.now), verdict), w)
  {
    var n := CandidateAt(h, |h.trail|);
    SkipKeepsTrack(h, Probe(n, w.backends[n], w.now), verdict);
  }

  lemma FailureIsReady(h: Handler, w: World)
    requires Ready(h, w) && |h.trail| < |h.candidates|
    requires var answer := AnswerFrom(w, h.ctx, CandidateAt(h, |h.trail|));
             answer.TransportFailed? || answer.ServerError?
    ensures var n := CandidateAt(h, |h.trail|);
            var r := Receive(RunWalk(h, w.backends, Still(w.now), w.staleAfter), w.outcomes[n]);
            Ready(Resume(r), w) && |Resume(r).trail| == |h.trail| + 1
            && (Resume(r).candidates, Resume(r).i0, Resume(r).ctx, Resume(r).model) ==
               (h.candidates, h.i0, h.ctx, h.model)
  {
    AdmittedStops(h, w);
    FailedIsReady(h, w, RunWalk(h, w.backends, Still(w.now), w.staleAfter));
  }

  lemma FailedIsReady(h: Handler, w: World, g: Handler)
    requires Ready(h, w) && |h.trail| < |h.candidates|
    requires var answer := AnswerFrom(w, h.ctx, CandidateAt(h, |h.trail|));
             answer.TransportFailed? || answer.ServerError?
    requires OnTrack(g) && g.phase.Proxying? && g.phase.probe.name == CandidateAt(h, |h.trail|)
             && g == h.(phase := g.phase)
    ensures var next := Resume(Receive(g, w.outcomes[g.phase.probe.name]));
            Ready(next, w) && |next.trail| == |h.trail| + 1
                && (next.candidates, next.i0, next.ctx, next.model) == (h.candidates, h.i0, h.ctx, h.model)
  {
    var u := w.outcomes[g.phase.probe.name];
    ReceiveKeepsTrack(g, u);
    ReceiveResult(g, u);
    var r := Receive(g, u);
    if r.phase.Releasing? {
      ReleaseKeepsTrack(r);
    }
  }

  /** An admitting candidate is where the walk stops. */
  lemma AdmittedStops(h: Handler, w: World)
    requires OnTrack(h) && h.phase.Walking? && Covers(w, h.candidates) && |h.trail| < |h.candidates|
    requires !AnswerFrom(w, h.ctx, CandidateAt(h, |h.trail|)).Rejected?
    ensures var g, n := RunWalk(h, w.backends, Still(w.now), w.staleAfter), CandidateAt(h, |h.trail|);
            && OnTrack(g) && g.phase.Proxying? && g.phase.probe == Probe(n, w.backends[n], w.now)
            && g == h.(phase := g.phase)
  {
    RunWalkKeepsTrack(h, w.backends, Still(w.now), w.staleAfter);
  }

  // ----- what the snapshot alone decides -----

  ghost predicate SomeServes(w: World, ctx: Option<nat>, candidates: seq<Name>)
    requires Covers(w, candidates)
  {
    exists c <- candidates :: AnswerFrom(w, ctx, c).Served?
  }

  ghost predicate SomeRejects(w: World, ctx: Option<nat>, candidates: seq<Name>)
    requires Covers(w, candidates)
  {
    exists c <- candidates :: AnswerFrom(w, ctx, c).Rejected?
  }

  /** `retry` is the greatest wait any rejecting candidate asks for. */
  ghost predicate GreatestRetry(w: World, ctx: Option<nat>, candidates: seq<Name>, retry: int)
    requires Covers(w, candidates)
  {
    && (forall c <- candidates | AnswerFrom(w, ctx, c).Rejected? :: RetryOf(AnswerFrom(w, ctx, c).verdict) <= retry)
    && exists c <- candidates :: AnswerFrom(w, ctx, c).Rejected? && RetryOf(AnswerFrom(w, ctx, c).verdict) == retry
  }

  /** A walk alone over the snapshot from candidate `i0`. */
  function WalkFrom(
      model: Model, ctx: Option<nat>, candidates: seq<Name>, i0: nat, w: World): (Handler, map<Name, Backend>)
    requires candidates != [] && forall c <- candidates :: c in w.backends && c in w.outcomes
  {
    Alone(BeginWalk(model, ctx, candidates, i0), w)
  }

  lemma WalkFromPlays(model: Model, ctx: Option<nat>, candidates: seq<Name>, i0: nat, w: World)
    requires Covers(w, candidates) && i0 < |candidates|
    ensures var (g, after) := WalkFrom(model, ctx, candidates, i0, w);
            Plays(BeginWalk(model, ctx, candidates, i0), w, g, after)
  {
    BeginWalkOnTrack(model, ctx, candidates, i0);
    AlonePlays(BeginWalk(model, ctx, candidates, i0), w);
  }

  /** The answer the snapshot decides, wherever the walk starts. */
  ghost predicate Decides(w: World, ctx: Option<nat>, candidates: seq<Name>, response: Response)
    requires Covers(w, candidates)
  {
    && (response.Forwarded? <==> SomeServes(w, ctx, candidates))
    && (response.TooManyRequests? <==> !SomeServes(w, ctx, candidates) && SomeRejects(w, ctx, candidates))
    && (response.TooManyRequests? ==> GreatestRetry(w, ctx, candidates, response.retryAfter))
  }

  /** An exhausted walk carries the snapshot's answer of every candidate. */
  lemma EveryCandidateAnswered(h: Handler, w: World, g: Handler, after: map<Name, Backend>, c: Name)
    requires Covers(w, h.candidates) && Plays(h, w, g, after) && |g.trail| == |g.candidates| && c in h.candidates
    ensures exists v <- g.trail :: v.probe.name == c && v.answer == AnswerFrom(w, h.ctx, c)
  {
    var p :| 0 <= p < |h.candidates| && h.candidates[p] == c;
    AllVisited(g, p);
  }

  lemma SnapshotDecides(h: Handler, w: World, g: Handler, after: map<Name, Backend>)
    requires Covers(w, h.candidates) && Plays(h, w, g, after)
    ensures Decides(w, h.ctx, h.candidates, g.phase.response)
  {
    FinishedIsClassified(g);
    var last := g.trail[|g.trail| - 1];
    assert last in g.trail;
    if !g.phase.response.Forwarded? {
      forall c <- h.candidates
        ensures !AnswerFrom(w, h.ctx, c).Served?
        ensures AnswerFrom(w, h.ctx, c).Rejected? ==> SomeRejected(g)
      {
        EveryCandidateAnswered(h, w, g, after, c);
      }
      if g.phase.response.TooManyRequests? {
        RetryIsGreatest(h, w, g, after);
      }
    }
  }

  lemma RetryIsGreatest(h: Handler, w: World, g: Handler, after: map<Name, Backend>)
    requires Covers(w, h.candidates) && Plays(h, w, g, after) && g.phase.response.TooManyRequests?
    ensures GreatestRetry(w, h.ctx, h.candidates, g.phase.response.retryAfter)
    ensures SomeRejects(w, h.ctx, h.candidates)
  {
    var retry := g.phase.response.retryAfter;
    assert Exhausts(g.trail, g.phase.response);
    var k :| 0 <= k < |g.trail| && FirstAskingAt(g.trail, k, retry);
    assert g.trail[k] in g.trail;
    var first := g.trail[k].probe.name;
    assert AnswerFrom(w, h.ctx, first).Rejected? && RetryOf(AnswerFrom(w, h.ctx, first).verdict) == retry;
    forall c <- h.candidates | AnswerFrom(w, h.ctx, c).Rejected?
      ensures RetryOf(AnswerFrom(w, h.ctx, c).verdict) <= retry
    {
      EveryCandidateAnswered(h, w, g, after, c);
    }
  }

  /** Policy independence: two walks over one snapshot from any two start candidates agree on whether some
      backend serves the request, on whether the answer is 429, and on its exact Retry-After; and unless
      some backend served it, both leave the backends as they were. */
  ghost predicate Agree(a: (Handler, map<Name, Backend>), b: (Handler, map<Name, Backend>))
  {
    && a.0.phase.Done? && b.0.phase.Done?
    && var ra, rb := a.0.phase.response, b.0.phase.response;
    && (ra.Forwarded? <==> rb.Forwarded?)
    && (ra.TooManyRequests? <==> rb.TooManyRequests?)
    && (ra.TooManyRequests? ==> ra.retryAfter == rb.retryAfter)
    && (!ra.Forwarded? ==> a.1 == b.1)
  }

  lemma StartIndependence(model: Model, ctx: Option<nat>, candidates: seq<Name>, i: nat, j: nat, w: World)
    requires Covers(w, candidates) && i < |candidates| && j < |candidates|
    ensures Agree(WalkFrom(model, ctx, candidates, i, w), WalkFrom(model, ctx, candidates, j, w))
  {
    var a, b := WalkFrom(model, ctx, candidates, i, w), WalkFrom(model, ctx, candidates, j, w);
    WalkFromPlays(model, ctx, candidates, i, w);
    WalkFromPlays(model, ctx, candidates, j, w);
    SnapshotDecides(BeginWalk(model, ctx, candidates, i), w, a.0, a.1);
    SnapshotDecides(BeginWalk(model, ctx, candidates, j), w, b.0, b.1);
  }

  ghost predicate AllFail(w: World, ctx: Option<nat>, candidates: seq<Name>)
    requires Covers(w, candidates)
  {
    !SomeServes(w, ctx, candidates) && !SomeRejects(w, ctx, candidates)
  }

  function LastInWalk(candidates: seq<Name>, i: nat): Name
    requires candidates != []
  {
    candidates[(i + |candidates| - 1) % |candidates|]
  }

  /** The one thing the start decides about a failure: when all candidates fail, the last in walk order says
      whether its 5xx is propagated or the answer is 502. */
  ghost predicate FailsLike(w: World, ctx: Option<nat>, candidates: seq<Name>, last: Name, response: Response)
    requires Covers(w, candidates) && last in candidates
  {
    && (response.BadGateway? <==> AllFail(w, ctx, candidates) && AnswerFrom(w, ctx, last).TransportFailed?)
    && (response.Propagated? <==> AllFail(w, ctx, candidates) && AnswerFrom(w, ctx, last).ServerError?)
    && (response.Propagated? ==> response == Propagated(AnswerFrom(w, ctx, last).status, last))
  }

  lemma FailsLikeLast(h: Handler, w: World, g: Handler, after: map<Name, Backend>)
    requires Covers(w, h.candidates) && Plays(h, w, g, after) && Classified(g)
    requires Decides(w, h.ctx, h.candidates, g.phase.response)
    ensures var last := LastInWalk(h.candidates, h.i0);
            last in h.candidates && FailsLike(w, h.ctx, h.candidates, last, g.phase.response)
  {
    var response := g.phase.response;
    if response.BadGateway? || response.Propagated? {
      var v := g.trail[|g.trail| - 1];
      assert v in g.trail && v.probe.name == CandidateAt(g, |g.trail| - 1);
    } else {
      assert response.Forwarded? || response.TooManyRequests?;
    }
  }

  lemma LastCandidateDecides(model: Model, ctx: Option<nat>, candidates: seq<Name>, i: nat, w: World)
    requires Covers(w, candidates) && i < |candidates|
    ensures var g := WalkFrom(model, ctx, candidates, i, w).0;
            var last := LastInWalk(candidates, i);
            last in candidates && g.phase.Done? && FailsLike(w, ctx, candidates, last, g.phase.response)
  {
    var (g, after) := WalkFrom(model, ctx, candidates, i, w);
    var h := BeginWalk(model, ctx, candidates, i);
    WalkFromPlays(model, ctx, candidates, i, w);
    SnapshotDecides(h, w, g, after);
    FinishedIsClassified(g);
    FailsLikeLast(h, w, g, after);
  }

  /** The comment at src/gate/app.py:866 reads 502 as "every candidate failed at transport". The code also
      answers 502 after an earlier candidate's 5xx, and the same backends in the other order propagate it. */
  lemma BadGatewayDespite5xx(model: Model, ctx: Option<nat>, settings: Settings, status: int)
    requires ValidSettings(settings) && status >= 500
    ensures var b := NewBackend(settings);
            var w := World(map["first" := b, "second" := b],
                map["first" := Responded(status), "second" := Unreachable], 0.0, 1.0);
            && WalkFrom(model, ctx, ["first", "second"], 0, w).0.phase == Done(BadGateway)
            && WalkFrom(model, ctx, ["first", "second"], 1, w).0.phase == Done(Propagated(status, "first"))
  {
    var b, candidates := NewBackend(settings), ["first", "second"];
    var w := World(map["first" := b, "second" := b],
                   map["first" := Responded(status), "second" := Unreachable], 0.0, 1.0);
    assert candidates[0][0] != candidates[1][0];
    EvaluateRejectsIff(b, ctx, 0.0, 1.0);
    assert AnswerFrom(w, ctx, "first") == ServerError(status) && AnswerFrom(w, ctx, "second") == TransportFailed;
    LastCandidateDecides(model, ctx, candidates, 0, w);
    LastCandidateDecides(model, ctx, candidates, 1, w);
  }

  /** The walk a routing entry leads to: from the candidate its policy selects. */
  function WalkUnder(
      r: Resolution, model: Model, ctx: Option<nat>, views: map<Name, CandidateView>, rr: map<Model, nat>,
      w: World): (Handler, map<Name, Backend>)
    requires r.candidates != [] && forall c <- r.candidates :: c in w.backends && c in w.outcomes
  {
    WalkFrom(model, ctx, r.candidates, StartIndex(r, model, ctx, views, rr), w)
  }

  /** The indices after a request ended like this: a forward advances its model's. */
  function Advanced(rr: map<Model, nat>, end: Handler): map<Model, nat> {
    if end.phase.Done? && end.phase.response.Forwarded? then RrAdvance(rr, end.model, |end.candidates|) else rr
  }

  /** So any two policies agree, whatever they saw and wherever their round-robin indices stood. */
  lemma PolicyIndependence(
      candidates: seq<Name>, spec: RoutingSpec, other: RoutingSpec, model: Model, ctx: Option<nat>,
      views: map<Name, CandidateView>, otherViews: map<Name, CandidateView>, rr: map<Model, nat>,
          otherRr: map<Model, nat>, w: World)
    requires Covers(w, candidates)
    ensures Agree(WalkUnder(Resolution(candidates, spec), model, ctx, views, rr, w),
                  WalkUnder(Resolution(candidates, other), model, ctx, otherViews, otherRr, w))
  {
    StartIndexInRange();
    StartIndependence(model, ctx, candidates, StartIndex(Resolution(candidates, spec), model, ctx, views, rr),
                      StartIndex(Resolution(candidates, other), model, ctx, otherViews, otherRr), w);
  }

  // ----- fill and primary_fallback -----

  /** Candidate `p` is the first in the entry's order that serves. */
  ghost predicate FirstServing(w: World, ctx: Option<nat>, candidates: seq<Name>, p: nat)
    requires Covers(w, candidates)
  {
    && p < |candidates| && AnswerFrom(w, ctx, candidates[p]).Served?
    && forall q | 0 <= q < p :: !AnswerFrom(w, ctx, candidates[q]).Served?
  }

  /** A walk over the snapshot that some candidate served. */
  ghost predicate Served(g: Handler, w: World) {
    && Covers(w, g.candidates) && Recorded(g) && AsGiven(w, g.ctx, g.candidates, g.trail)
    && g.phase.Done? && g.phase.response.Forwarded? && ServedBy(g, g.phase.response)
  }

  lemma PlaysServed(h: Handler, w: World, g: Handler, after: map<Name, Backend>)
    requires Covers(w, h.candidates) && Plays(h, w, g, after) && g.phase.response.Forwarded?
    ensures Served(g, w) && (g.candidates, g.i0, g.ctx) == (h.candidates, h.i0, h.ctx)
  {
  }

  lemma VisitIsGiven(g: Handler, w: World, k: nat)
    requires Covers(w, g.candidates) && Recorded(g) && AsGiven(w, g.ctx, g.candidates, g.trail) && k < |g.trail|
    ensures var c := CandidateAt(g, k);
            c in g.candidates && g.trail[k].probe.name == c && g.trail[k].answer == AnswerFrom(w, g.ctx, c)
  {
    assert g.trail[k] in g.trail;
  }

  lemma NoneServedBefore(trail: seq<Visit>, m: nat)
    requires m <= |trail| && NoneServed(trail[..m])
    ensures forall k | 0 <= k < m :: !trail[k].answer.Served?
  {
    forall k | 0 <= k < m ensures !trail[k].answer.Served? {
      assert trail[..m][k] in trail[..m];
    }
  }

  /** Only the last visit was of a candidate that serves. */
  lemma ServingVisitIsLast(g: Handler, w: World, k: nat)
    requires Served(g, w) && k < |g.trail|
    ensures CandidateAt(g, k) in g.candidates
    ensures AnswerFrom(w, g.ctx, CandidateAt(g, k)).Served? ==> k == |g.trail| - 1
  {
    NoneServedBefore(g.trail, |g.trail| - 1);
    VisitIsGiven(g, w, k);
  }

  /** So a walk whose first candidate serves ends there. */
  lemma FirstServesAtOnce(g: Handler, w: World)
    requires Served(g, w) && AnswerFrom(w, g.ctx, g.candidates[g.i0]).Served?
    ensures g.phase == Done(Forwarded(AnswerFrom(w, g.ctx, g.candidates[g.i0]).status, g.candidates[g.i0]))
  {
    RotationWraps(|g.candidates|, g.i0, 0);
    ServingVisitIsLast(g, w, 0);
    LastVisitServed(g, w);
  }

  lemma LastVisitServed(g: Handler, w: World)
    requires Served(g, w)
    ensures 0 < |g.trail| <= |g.candidates|
    ensures var last := CandidateAt(g, |g.trail| - 1);
            && last in g.candidates && AnswerFrom(w, g.ctx, last).Served?
            && g.phase.response == Forwarded(AnswerFrom(w, g.ctx, last).status, last) && LastName(g) == last
  {
    VisitIsGiven(g, w, |g.trail| - 1);
  }

  /** A walk that starts past candidates that do not serve is served by the first that does. */
  lemma ServedByFirst(g: Handler, w: World) returns (p: nat)
    requires Served(g, w)
    requires forall q | 0 <= q < g.i0 :: !AnswerFrom(w, g.ctx, g.candidates[q]).Served?
    ensures FirstServing(w, g.ctx, g.candidates, p)
    ensures g.phase.response == Forwarded(AnswerFrom(w, g.ctx, g.candidates[p]).status, g.candidates[p])
    ensures LastName(g) == g.candidates[p]
  {
    var m, n := |g.trail| - 1, |g.candidates|;
    LastVisitServed(g, w);
    RotationWraps(n, g.i0, m);
    p := (g.i0 + m) % n;
    forall q | g.i0 <= q < p ensures !AnswerFrom(w, g.ctx, g.candidates[q]).Served? {
      NotServedAt(g, w, q);
    }
  }

  lemma NotServedAt(g: Handler, w: World, q: nat)
    requires Served(g, w) && g.i0 <= q < |g.candidates| && q - g.i0 < |g.trail| - 1
    ensures !AnswerFrom(w, g.ctx, g.candidates[q]).Served?
  {
    RotationWraps(|g.candidates|, g.i0, q - g.i0);
    ServingVisitIsLast(g, w, q - g.i0);
  }

  lemma {:induction false} ViewsSee(
      candidates: seq<Name>, backends: map<Name, Backend>, clock: nat -> real, staleAfter: real, k: nat, p: nat)
    requires k <= |candidates| && (forall c <- candidates :: c in backends) && Distinct(candidates) && p < k
    ensures ViewOf(ViewsOf(candidates, backends, clock, staleAfter, k), candidates[p]) ==
            View(backends[candidates[p]], clock(p), staleAfter)
  {
    if p < k - 1 {
      ViewsSee(candidates, backends, clock, staleAfter, k - 1, p);
    }
  }

  /** What selection sees of the snapshot. */
  function SnapshotViews(candidates: seq<Name>, w: World): map<Name, CandidateView>
    requires forall c <- candidates :: c in w.backends
  {
    ViewsOf(candidates, w.backends, Still(w.now), w.staleAfter, |candidates|)
  }

  /** The candidate `fill` starts from on the snapshot's own views. */
  function FillStart(candidates: seq<Name>, ctx: Option<nat>, w: World): nat
    requires forall c <- candidates :: c in w.backends
  {
    SelectFill(candidates, ctx, SnapshotViews(candidates, w)).GetOr(0)
  }

  /** Every candidate before `fill`'s choice is one the walk rejects. */
  lemma FillSkipsRejects(candidates: seq<Name>, ctx: Option<nat>, w: World, q: nat)
    requires Covers(w, candidates) && (forall c <- candidates :: ValidSettings(w.backends[c].settings))
    requires q < FillStart(candidates, ctx, w)
    ensures q < |candidates| && AnswerFrom(w, ctx, candidates[q]).Rejected?
  {
    ViewsSee(candidates, w.backends, Still(w.now), w.staleAfter, |candidates|, q);
    FillPassesOverRejects(w.backends[candidates[q]], ctx, w.now, w.staleAfter);
  }

  /** When `fill` finds no candidate, all of them reject and the answer is 429. */
  lemma FillNoneIsRejected(candidates: seq<Name>, ctx: Option<nat>, w: World, model: Model, i: nat)
    requires Covers(w, candidates) && (forall c <- candidates :: ValidSettings(w.backends[c].settings))
             && i < |candidates|
    requires SelectFill(candidates, ctx, SnapshotViews(candidates, w)).None?
    ensures forall c <- candidates :: AnswerFrom(w, ctx, c).Rejected?
    ensures var (g, _) := WalkFrom(model, ctx, candidates, i, w); g.phase.Done? && g.phase.response.TooManyRequests?
  {
    forall c <- candidates ensures AnswerFrom(w, ctx, c).Rejected? {
      var q :| 0 <= q < |candidates| && candidates[q] == c;
      ViewsSee(candidates, w.backends, Still(w.now), w.staleAfter, |candidates|, q);
      FillPassesOverRejects(w.backends[c], ctx, w.now, w.staleAfter);
    }
    assert AnswerFrom(w, ctx, candidates[0]).Rejected?;
    var (g, after) := WalkFrom(model, ctx, candidates, i, w);
    WalkFromPlays(model, ctx, candidates, i, w);
    SnapshotDecides(BeginWalk(model, ctx, candidates, i), w, g, after);
  }

  /** The same answer and the same backends afterwards; a 429 may name another of the rejects that ask for
      the same wait. */
  ghost predicate SameOutcome(a: (Handler, map<Name, Backend>), b: (Handler, map<Name, Backend>)) {
    && a.0.phase.Done? && b.0.phase.Done?
    && var ra, rb := a.0.phase.response, b.0.phase.response;
    && (if ra.TooManyRequests? then rb.TooManyRequests? && ra.retryAfter == rb.retryAfter else ra == rb)
    && a.1 == b.1
  }

  /** `fill` refines `primary_fallback`: it only spares the walk the candidates that would reject. */
  lemma FillRefinesPrimaryFallback(
      candidates: seq<Name>, fill: RoutingSpec, primary: RoutingSpec, model: Model, ctx: Option<nat>,
      views: map<Name, CandidateView>, rr: map<Model, nat>, w: World)
    requires Covers(w, candidates) && (forall c <- candidates :: ValidSettings(w.backends[c].settings))
    requires fill.policy == Fill && primary.policy == PrimaryFallback
    ensures SameOutcome(WalkUnder(Resolution(candidates, fill), model, ctx, SnapshotViews(candidates, w), rr, w),
                        WalkUnder(Resolution(candidates, primary), model, ctx, views, rr, w))
  {
    FillStartMatchesFirst(model, ctx, candidates, w);
  }

  /** Two walks past candidates that do not serve are served by the same one. */
  lemma SameServer(g: Handler, other: Handler, w: World)
    requires Served(g, w) && Served(other, w) && (g.candidates, g.ctx) == (other.candidates, other.ctx)
    requires forall q | 0 <= q < g.i0 :: !AnswerFrom(w, g.ctx, g.candidates[q]).Served?
    requires forall q | 0 <= q < other.i0 :: !AnswerFrom(w, g.ctx, g.candidates[q]).Served?
    ensures g.phase.response == other.phase.response && LastName(g) == LastName(other)
  {
    var p := ServedByFirst(g, w);
    var q := ServedByFirst(other, w);
    assert p == q;
  }

  lemma ServedAlike(
      h: Handler, a: (Handler, map<Name, Backend>), k: Handler, b: (Handler, map<Name, Backend>), w: World)
    requires Covers(w, h.candidates) && (h.candidates, h.ctx) == (k.candidates, k.ctx)
    requires Plays(h, w, a.0, a.1) && Plays(k, w, b.0, b.1)
    requires a.0.phase.response.Forwarded? && b.0.phase.response.Forwarded?
    requires h.i0 < |h.candidates| && k.i0 < |h.candidates|
    requires forall q | 0 <= q < h.i0 :: !AnswerFrom(w, h.ctx, h.candidates[q]).Served?
    requires forall q | 0 <= q < k.i0 :: !AnswerFrom(w, h.ctx, h.candidates[q]).Served?
    ensures SameOutcome(a, b)
  {
    PlaysServed(h, w, a.0, a.1);
    PlaysServed(k, w, b.0, b.1);
    SameServer(a.0, b.0, w);
  }

  lemma FillStartMatchesFirst(model: Model, ctx: Option<nat>, candidates: seq<Name>, w: World)
    requires Covers(w, candidates) && (forall c <- candidates :: ValidSettings(w.backends[c].settings))
    ensures SameOutcome(WalkFrom(model, ctx, candidates, FillStart(candidates, ctx, w), w),
                        WalkFrom(model, ctx, candidates, 0, w))
  {
    var f := FillStart(candidates, ctx, w);
    WalkFromPlays(model, ctx, candidates, 0, w);
    if f > 0 {
      LaterStartMatchesFirst(model, ctx, candidates, f, w);
    }
  }

  lemma LaterStartMatchesFirst(model: Model, ctx: Option<nat>, candidates: seq<Name>, f: nat, w: World)
    requires Covers(w, candidates) && (forall c <- candidates :: ValidSettings(w.backends[c].settings))
    requires 0 < f == FillStart(candidates, ctx, w)
    ensures SameOutcome(WalkFrom(model, ctx, candidates, f, w), WalkFrom(model, ctx, candidates, 0, w))
  {
    forall q | 0 <= q < f ensures AnswerFrom(w, ctx, candidates[q]).Rejected? {
      FillSkipsRejects(candidates, ctx, w, q);
    }
    var a, b := WalkFrom(model, ctx, candidates, f, w), WalkFrom(model, ctx, candidates, 0, w);
    WalkFromPlays(model, ctx, candidates, f, w);
    WalkFromPlays(model, ctx, candidates, 0, w);
    StartIndependence(model, ctx, candidates, f, 0, w);
    if a.0.phase.response.Forwarded? {
      ServedAlike(BeginWalk(model, ctx, candidates, f), a, BeginWalk(model, ctx, candidates, 0), b, w);
    } else {
      SnapshotDecides(BeginWalk(model, ctx, candidates, f), w, a.0, a.1);
      assert SomeRejects(w, ctx, candidates);
    }
  }
}
