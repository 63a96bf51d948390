/**
 The failover walk of one generation request (`_handle_generation`, src/gate/app.py): rotation, the
 three kinds of skip, the exhaustion rule and the records made on the way. A handler is cut at its
 awaits; between two of them it runs without interruption.
 */
module Walk {
  import opened Wrappers
  import opened Numbers
  import opened Router
  import opened Routing
  import opened Backends

  /** The backend a candidate stood for when the walk reached it, and the clock reading it was judged with. */
  datatype Probe = Probe(name: Name, seen: Backend, at: real)

  /** How one candidate answered: rejected by the gate, failed before the stream, or served. */
  datatype Answer = Rejected(verdict: Verdict) | TransportFailed | ServerError(status: int) | Served(status: int)

  datatype Visit = Visit(probe: Probe, answer: Answer)

  datatype Reject = Reject(name: Name, verdict: Verdict)

  datatype Response =
    | Forwarded(status: int, backend: Name)
    | Propagated(status: int, backend: Name)
    | TooManyRequests(retryAfter: int, rejector: Reject)
    | BadGateway

  datatype FailoverReason = OnReject | OnTransport | OnServerError

  datatype RejectionReason = Gate(reason: Reason) | AllBackendsFailed

  /** The stats calls; the backend is `None` for the sentinel label of a request no backend answered. */
  datatype Record =
    | RecordForwarded(backend: Name)
    | RecordRejected(rejector: Option<Name>)
    | RecordRejection(rejector: Option<Name>, refusal: RejectionReason, tierKvPct: real)
    | RecordFailover(from: Name, to: Name, cause: FailoverReason)

  /** Where a handler is: reading the body, awaiting the proxy with a charge placed, releasing a discarded
      5xx, releasing the last one before answering 429, or finished. `Walking` is between two awaits. */
  datatype Phase =
    | Reading
    | Walking
    | Proxying(probe: Probe, charge: int, seqBefore: nat)
    | Releasing
    | ReleasingLast(response: Response)
    | Done(response: Response)
    | Aborted(holding: Option<Name>)

  datatype ServerAnswer = ServerAnswer(status: int, backend: Name)

  datatype Handler = Handler(
    phase: Phase, model: Model, ctx: Option<nat>, candidates: seq<Name>, i0: nat,
    rejects: seq<Reject>, last5xx: Option<ServerAnswer>, trail: seq<Visit>, records: seq<Record>)

  const NEW_HANDLER := Handler(Reading, "", None, [], 0, [], None, [], [])

  function BeginWalk(model: Model, ctx: Option<nat>, candidates: seq<Name>, i0: nat): Handler {
    Handler(Walking, model, ctx, candidates, i0, [], None, [], [])
  }

  /** The candidate visited `k`-th. */
  function CandidateAt(h: Handler, k: nat): Name
    requires h.candidates != []
  {
    h.candidates[(h.i0 + k) % |h.candidates|]
  }

  function WithFailover(h: Handler, k: nat, reason: FailoverReason): seq<Record>
    requires h.candidates != []
  {
    if k + 1 < |h.candidates| then h.records + [RecordFailover(CandidateAt(h, k), CandidateAt(h, k + 1), reason)]
        else h.records
  }

  function Skip(h: Handler, probe: Probe, verdict: Verdict): Handler
    requires h.candidates != []
  {
    h.(rejects := h.rejects + [Reject(probe.name, verdict)],
       records := WithFailover(h, |h.trail|, OnReject),
       trail := h.trail + [Visit(probe, Rejected(verdict))])
  }

  /** Runs until a candidate admits the request or the candidates are exhausted. Reading `n + k` of
      the clock judges the `k`-th visit. */
  function RunWalk(h: Handler, backends: map<Name, Backend>, clock: nat -> real, staleAfter: real): Handler
    requires h.candidates != [] && forall c <- h.candidates :: c in backends
    decreases |h.candidates| - |h.trail|
  {
    var k := |h.trail|;
    if k >= |h.candidates| then Conclude(h)
    else
      var probe := ProbeAt(h, backends, clock, k);
      var verdict := Evaluate(probe.seen, h.ctx, probe.at, staleAfter);
      if verdict.dec.allow
      then h.(phase := Proxying(probe, Charge(h.ctx, probe.seen.settings.auto.tokenMargin), probe.seen.anchorSeq))
      else RunWalk(Skip(h, probe, verdict), backends, clock, staleAfter)
  }

  function ProbeAt(h: Handler, backends: map<Name, Backend>, clock: nat -> real, k: nat): Probe
    requires h.candidates != [] && forall c <- h.candidates :: c in backends
  {
    Probe(CandidateAt(h, k), backends[CandidateAt(h, k)], clock(|h.candidates| + k))
  }

  // ----- exhaustion -----

  /** The wait a reject asks for; a reject always names one. */
  function RetryOf(verdict: Verdict): int {
    verdict.dec.retryAfter.GetOr(0)
  }

  function MaxRetry(rejects: seq<Reject>): int
    requires rejects != []
  {
    if |rejects| == 1 then RetryOf(rejects[0].verdict)
    else Max(MaxRetry(rejects[..|rejects| - 1]), RetryOf(rejects[|rejects| - 1].verdict))
  }

  /** The first reject that asks for `retry`, if any does. */
  function FirstAsking(rejects: seq<Reject>, retry: int): Option<Reject> {
    if rejects == [] then None
    else
      var earlier, last := FirstAsking(rejects[..|rejects| - 1], retry), rejects[|rejects| - 1];
      if earlier.Some? then earlier else if RetryOf(last.verdict) == retry then Some(last) else None
  }

  function TierLabel(dec: Decision): real {
    if dec.activeTier.Some? then dec.activeTier.value.kvPct else 0.0
  }

  function Conclude(h: Handler): Handler {
    if h.rejects != [] then
      var retry := MaxRetry(h.rejects);
      var rejector := FirstAsking(h.rejects, retry).GetOr(h.rejects[0]);
      var response := TooManyRequests(retry, rejector);
      h.(records := h.records + RejectionRecords(rejector),
         phase := if h.last5xx.Some? then ReleasingLast(response) else Done(response))
    else if h.last5xx.Some? then
      h.(records := h.records + [RecordForwarded(h.last5xx.value.backend)],
         phase := Done(Propagated(h.last5xx.value.status, h.last5xx.value.backend)))
    else
      h.(records := h.records + [RecordRejected(None), RecordRejection(None, AllBackendsFailed, 0.0)],
         phase := Done(BadGateway))
  }

  function RejectionRecords(rejector: Reject): seq<Record> {
    [RecordRejected(Some(rejector.name)),
     RecordRejection(Some(rejector.name), Gate(rejector.verdict.dec.reason), TierLabel(rejector.verdict.dec))]
  }

  // ----- the awaits -----

  /** What comes back from the proxied request: a transport error, or a status before the stream starts. */
  datatype Upstream = Unreachable | Responded(status: int)

  predicate Fails(u: Upstream) {
    u.Unreachable? || u.status >= 500
  }

  /** The handler after its proxied request came back, before it walks on. */
  function Receive(h: Handler, u: Upstream): Handler
    requires h.phase.Proxying? && h.candidates != []
  {
    var probe, k := h.phase.probe, |h.trail|;
    if u.Unreachable? then
      h.(phase := Walking, trail := h.trail + [Visit(probe, TransportFailed)],
          records := WithFailover(h, k, OnTransport))
    else if u.status >= 500 then
      var visited := h.(trail := h.trail + [Visit(probe, ServerError(u.status))]);
      if k + 1 < |h.candidates| then visited.(phase := Releasing)
      else visited.(phase := Walking, last5xx := Some(ServerAnswer(u.status, probe.name)))
    else
      h.(phase := Done(Forwarded(u.status, probe.name)),
         trail := h.trail + [Visit(probe, Served(u.status))],
         records := h.records + [RecordForwarded(probe.name)])
  }

  /** The handler after a discarded response was released. */
  function Release(h: Handler): Handler
    requires h.phase.Releasing? || h.phase.ReleasingLast?
    requires h.phase.Releasing? ==> h.candidates != [] && h.trail != []
  {
    match h.phase
    case Releasing => h.(phase := Walking, records := WithFailover(h, |h.trail| - 1, OnServerError))
    case ReleasingLast(response) => h.(phase := Done(response))
  }

  /** Any other exception at an await ends the request; a charge it had placed stays placed. */
  function Abort(h: Handler): Handler {
    h.(phase := Aborted(if h.phase.Proxying? then Some(h.phase.probe.name) else None))
  }

  // ----- what a walk has to show for itself -----

  /** The trail visits the candidates in rotated order. */
  ghost predicate InOrder(h: Handler)
    requires h.candidates != []
  {
    forall k | 0 <= k < |h.trail| :: h.trail[k].probe.name == CandidateAt(h, k)
  }

  /** A rejected visit carries the gate's verdict about the backend as it was seen; any other was admitted. */
  predicate Justified(v: Visit, ctx: Option<nat>, staleAfter: real) {
    var verdict := Evaluate(v.probe.seen, ctx, v.probe.at, staleAfter);
    if v.answer.Rejected? then v.answer.verdict == verdict && !verdict.dec.allow else verdict.dec.allow
  }

  /** A probe saw its backend with the settings that backend has. */
  predicate SeenAs(probe: Probe, settings: map<Name, Settings>) {
    probe.name in settings && probe.seen.settings == settings[probe.name]
  }

  /** Every visit is justified, and a request at the proxy was admitted and charged by what was seen. */
  ghost predicate Judged(h: Handler, staleAfter: real, settings: map<Name, Settings>) {
    && (forall v <- h.trail :: Justified(v, h.ctx, staleAfter) && SeenAs(v.probe, settings))
    && (h.phase.Proxying? ==>
          && SeenAs(h.phase.probe, settings)
          && Evaluate(h.phase.probe.seen, h.ctx, h.phase.probe.at, staleAfter).dec.allow
          && h.phase.charge == Charge(h.ctx, h.phase.probe.seen.settings.auto.tokenMargin)
          && h.phase.seqBefore == h.phase.probe.seen.anchorSeq)
  }

  ghost predicate NoneServed(trail: seq<Visit>) {
    forall v <- trail :: !v.answer.Served?
  }

  function RejectsOf(trail: seq<Visit>): seq<Reject> {
    if trail == [] then []
    else
      var v := trail[|trail| - 1];
      RejectsOf(trail[..|trail| - 1]) + (if v.answer.Rejected? then [Reject(v.probe.name, v.answer.verdict)] else [])
  }

  /** The last candidate's 5xx, once every candidate was visited. */
  function LastServerError(h: Handler): Option<ServerAnswer> {
    if 0 < |h.trail| == |h.candidates| && h.trail[|h.trail| - 1].answer.ServerError?
    then Some(ServerAnswer(h.trail[|h.trail| - 1].answer.status, h.trail[|h.trail| - 1].probe.name))
    else None
  }

  function ReasonOf(answer: Answer): FailoverReason {
    match answer
    case Rejected(_) => OnReject
    case TransportFailed => OnTransport
    case _ => OnServerError
  }

  /** One failover record per consecutive pair of candidates among the first `m` visits. */
  function Failovers(h: Handler, m: nat): seq<Record>
    requires m <= |h.trail| && h.candidates != []
  {
    if m == 0 then []
    else
      var earlier := Failovers(h, m - 1);
      if m < |h.candidates|
      then earlier + [RecordFailover(CandidateAt(h, m - 1), CandidateAt(h, m), ReasonOf(h.trail[m - 1].answer))]
      else earlier
  }

  /** `response` is the exhaustion rule's answer to the trail. */
  ghost predicate Exhausts(trail: seq<Visit>, response: Response) {
    match response
    case TooManyRequests(retry, rejector) =>
      && (forall v <- trail | v.answer.Rejected? :: RetryOf(v.answer.verdict) <= retry)
      && exists k ::
         && 0 <= k < |trail| && FirstAskingAt(trail, k, retry)
         && rejector == Reject(trail[k].probe.name, trail[k].answer.verdict)
    case Propagated(status, backend) =>
      && (forall v <- trail :: !v.answer.Rejected?)
      && trail != [] && trail[|trail| - 1].answer == ServerError(status) && trail[|trail| - 1].probe.name == backend
    case BadGateway =>
      && (forall v <- trail :: !v.answer.Rejected?)
      && trail != [] && trail[|trail| - 1].answer == TransportFailed
    case Forwarded(_, _) => false
  }

  /** Visit `k` is the first rejected one asking for `retry`. */
  ghost predicate FirstAskingAt(trail: seq<Visit>, k: nat, retry: int)
    requires k < |trail|
  {
    && trail[k].answer.Rejected? && RetryOf(trail[k].answer.verdict) == retry
    && forall j | 0 <= j < k && trail[j].answer.Rejected? :: RetryOf(trail[j].answer.verdict) != retry
  }

  function ClosingRecords(response: Response): seq<Record> {
    match response
    case Forwarded(_, backend) => [RecordForwarded(backend)]
    case Propagated(_, backend) => [RecordForwarded(backend)]
    case TooManyRequests(_, rejector) => RejectionRecords(rejector)
    case BadGateway => [RecordRejected(None), RecordRejection(None, AllBackendsFailed, 0.0)]
  }

  /** The walk's variables say what the trail says. */
  ghost predicate Recorded(h: Handler) {
    && h.candidates != [] && h.i0 < |h.candidates| && |h.trail| <= |h.candidates|
    && InOrder(h)
    && h.rejects == RejectsOf(h.trail)
    && h.last5xx == LastServerError(h)
  }

  /** The invariant of a handler that has begun its walk. */
  ghost predicate OnTrack(h: Handler) {
    && Recorded(h)
    && match h.phase
       case Reading => false
       case Walking => NoneServed(h.trail) && h.records == Failovers(h, |h.trail|)
       case Proxying(probe, _, _) =>
         && NoneServed(h.trail) && |h.trail| < |h.candidates| && h.records == Failovers(h, |h.trail|)
         && probe.name == CandidateAt(h, |h.trail|)
       case Releasing =>
         && NoneServed(h.trail) && 0 < |h.trail| < |h.candidates| && h.records == Failovers(h, |h.trail| - 1)
         && h.trail[|h.trail| - 1].answer.ServerError?
       case ReleasingLast(response) =>
         Exhausted(h, response) && response.TooManyRequests?
       case Done(response) =>
         if response.Forwarded? then ServedBy(h, response) else Exhausted(h, response)
       case Aborted(_) => true
  }

  ghost predicate Exhausted(h: Handler, response: Response)
    requires h.candidates != []
  {
    && NoneServed(h.trail) && |h.trail| == |h.candidates|
    && Exhausts(h.trail, response)
    && h.records == Failovers(h, |h.trail|) + ClosingRecords(response)
  }

  /** The last visit, and only it, served the request. */
  ghost predicate ServedBy(h: Handler, response: Response)
    requires h.candidates != [] && response.Forwarded?
  {
    && h.trail != [] && NoneServed(h.trail[..|h.trail| - 1])
    && h.trail[|h.trail| - 1].answer == Served(response.status)
    && h.trail[|h.trail| - 1].probe.name == response.backend
    && h.records == Failovers(h, |h.trail| - 1) + ClosingRecords(response)
  }

  // ----- every step of a handler keeps it on track -----

  lemma {:induction false} FailoversUnchanged(h: Handler, g: Handler, m: nat)
    requires h.candidates == g.candidates != [] && h.i0 == g.i0
    requires m <= |h.trail| && m <= |g.trail| && h.trail[..m] == g.trail[..m]
    ensures Failovers(h, m) == Failovers(g, m)
  {
    if m == 0 {
    } else {
      assert h.trail[..m][..m - 1] == h.trail[..m - 1] && g.trail[..m][..m - 1] == g.trail[..m - 1];
      FailoversUnchanged(h, g, m - 1);
      assert h.trail[..m][m - 1] == g.trail[..m][m - 1];
    }
  }

  /** Adding a visit by the next candidate keeps the order and the rejects. */
  lemma VisitKeepsOrder(h: Handler, g: Handler, v: Visit)
    requires h.candidates != [] && InOrder(h)
    requires g.candidates == h.candidates && g.i0 == h.i0 && g.trail == h.trail + [v]
    requires v.probe.name == CandidateAt(h, |h.trail|)
    ensures InOrder(g)
    ensures RejectsOf(g.trail) ==
            if v.answer.Rejected? then RejectsOf(h.trail) + [Reject(v.probe.name, v.answer.verdict)]
            else RejectsOf(h.trail)
    ensures Failovers(g, |h.trail|) == Failovers(h, |h.trail|)
    ensures NoneServed(h.trail) && !v.answer.Served? ==> NoneServed(g.trail)
  {
    assert g.trail[..|h.trail|] == h.trail;
    FailoversUnchanged(h, g, |h.trail|);
  }

  lemma MaxRetryStep(rejects: seq<Reject>, r: Reject)
    ensures MaxRetry(rejects + [r]) == if rejects == [] then RetryOf(r.verdict)
            else Max(MaxRetry(rejects), RetryOf(r.verdict))
  {
    assert (rejects + [r])[..|rejects|] == rejects;
  }

  lemma FirstAskingStep(rejects: seq<Reject>, r: Reject, retry: int)
    ensures var earlier := FirstAsking(rejects, retry);
            FirstAsking(rejects + [r], retry) ==
            if earlier.Some? then earlier else if RetryOf(r.verdict) == retry then Some(r) else None
  {
    assert (rejects + [r])[..|rejects|] == rejects;
  }

  lemma RejectsOfStep(trail: seq<Visit>)
    requires trail != []
    ensures var init, v := trail[..|trail| - 1], trail[|trail| - 1];
            RejectsOf(trail) == if v.answer.Rejected? then RejectsOf(init) + [Reject(v.probe.name, v.answer.verdict)]
                else RejectsOf(init)
  {
  }

  /** The trail's rejects are empty iff no visit was rejected; their maximal wait is attained and bounds all. */
  lemma {:induction false} RejectsOfMeans(trail: seq<Visit>)
    ensures RejectsOf(trail) == [] <==> forall v <- trail :: !v.answer.Rejected?
    ensures RejectsOf(trail) != [] ==>
              && (forall v <- trail | v.answer.Rejected? :: RetryOf(v.answer.verdict) <= MaxRetry(RejectsOf(trail)))
              && exists v <- trail :: v.answer.Rejected? && RetryOf(v.answer.verdict) == MaxRetry(RejectsOf(trail))
  {
    if trail == [] {
    } else {
      var init, v := trail[..|trail| - 1], trail[|trail| - 1];
      RejectsOfMeans(init);
      RejectsOfStep(trail);
      assert forall u :: u in trail <==> u in init || u == v;
      if v.answer.Rejected? {
        MaxRetryStep(RejectsOf(init), Reject(v.probe.name, v.answer.verdict));
      }
    }
  }

  lemma {:induction false} FirstAskingMeans(trail: seq<Visit>, retry: int)
    ensures match FirstAsking(RejectsOf(trail), retry)
            case None => forall v <- trail | v.answer.Rejected? :: RetryOf(v.answer.verdict) != retry
            case Some(r) => exists k: nat ::
                && k < |trail| && FirstAskingAt(trail, k, retry)
                && r == Reject(trail[k].probe.name, trail[k].answer.verdict)
  {
    if trail == [] {
    } else {
      var n := |trail| - 1;
      var init, v := trail[..n], trail[n];
      FirstAskingMeans(init, retry);
      RejectsOfStep(trail);
      assert forall u :: u in trail <==> u in init || u == v;
      if v.answer.Rejected? {
        FirstAskingStep(RejectsOf(init), Reject(v.probe.name, v.answer.verdict), retry);
      }
      var earlier := FirstAsking(RejectsOf(init), retry);
      if earlier.Some? {
        var k: nat :| k < |init| && FirstAskingAt(init, k, retry)
            && earlier.value == Reject(init[k].probe.name, init[k].answer.verdict);
        assert FirstAskingAt(trail, k, retry);
      } else if v.answer.Rejected? && RetryOf(v.answer.verdict) == retry {
        forall j | 0 <= j < n && trail[j].answer.Rejected? ensures RetryOf(trail[j].answer.verdict) != retry {
          assert trail[j] == init[j] && init[j] in init;
        }
        assert FirstAskingAt(trail, n, retry);
      }
    }
  }

  /** A step that leaves the walk's variables alone leaves them recorded. */
  lemma SameWalk(h: Handler, g: Handler)
    requires Recorded(h)
    requires g.candidates == h.candidates && g.i0 == h.i0 && g.trail == h.trail
    requires g.rejects == h.rejects && g.last5xx == h.last5xx
    ensures Recorded(g)
    ensures forall m | 0 <= m <= |h.trail| :: Failovers(g, m) == Failovers(h, m)
  {
    forall m | 0 <= m <= |h.trail| ensures Failovers(g, m) == Failovers(h, m) {
      FailoversUnchanged(h, g, m);
    }
  }

  lemma ConclusionExhausts(trail: seq<Visit>, h: Handler)
    requires h.rejects == RejectsOf(trail) && NoneServed(trail) && trail != []
             && h.last5xx.Some? == trail[|trail| - 1].answer.ServerError?
    requires h.last5xx.Some? ==>
               h.last5xx.value == ServerAnswer(trail[|trail| - 1].answer.status, trail[|trail| - 1].probe.name)
    ensures var p := Conclude(h).phase; (p.Done? || p.ReleasingLast?) && Exhausts(trail, p.response)
    ensures Conclude(h).phase.ReleasingLast? ==> Conclude(h).phase.response.TooManyRequests?
    ensures Conclude(h).records == h.records + ClosingRecords(Conclude(h).phase.response)
  {
    var last := trail[|trail| - 1];
    assert last in trail && !last.answer.Served?;
    RejectsOfMeans(trail);
    if h.rejects != [] {
      FirstAskingMeans(trail, MaxRetry(h.rejects));
    }
  }

  lemma ConcludeKeepsTrack(h: Handler)
    requires OnTrack(h) && h.phase.Walking? && |h.trail| == |h.candidates|
    ensures OnTrack(Conclude(h))
  {
    ConclusionExhausts(h.trail, h);
    SameWalk(h, Conclude(h));
  }

  /** A reject is recorded and the walk moves on. */
  lemma SkipKeepsTrack(h: Handler, probe: Probe, verdict: Verdict)
    requires OnTrack(h) && h.phase.Walking? && |h.trail| < |h.candidates| && probe.name == CandidateAt(h, |h.trail|)
    ensures OnTrack(Skip(h, probe, verdict))
  {
    var g := Skip(h, probe, verdict);
    VisitKeepsOrder(h, g, Visit(probe, Rejected(verdict)));
    SkipExtends(h, probe, verdict);
    SkipRecords(h, probe, verdict);
  }

  lemma SkipRecords(h: Handler, probe: Probe, verdict: Verdict)
    requires h.candidates != [] && |h.trail| < |h.candidates| && h.records == Failovers(h, |h.trail|)
    ensures var g := Skip(h, probe, verdict); g.records == Failovers(g, |g.trail|)
  {
    var g := Skip(h, probe, verdict);
    assert g.trail[..|h.trail|] == h.trail;
    FailoversUnchanged(h, g, |h.trail|);
  }

  lemma SkipExtends(h: Handler, probe: Probe, verdict: Verdict)
    requires h.candidates != [] && |h.trail| < |h.candidates| && h.last5xx == LastServerError(h)
    ensures var g := Skip(h, probe, verdict);
            && |g.trail| == |h.trail| + 1 && g.trail[..|h.trail|] == h.trail
            && g.last5xx == LastServerError(g)
  {
  }

  /** The walk between two awaits only extends the trail, and stops either at a backend as it is now,
      or with an answer. */
  lemma {:induction false} RunWalkStops(h: Handler, backends: map<Name, Backend>, clock: nat -> real, staleAfter: real)
    requires h.candidates != [] && forall c <- h.candidates :: c in backends
    ensures var g := RunWalk(h, backends, clock, staleAfter);
            && (g.phase.Proxying? || g.phase.ReleasingLast? || (g.phase.Done? && !g.phase.response.Forwarded?))
            && (g.candidates, g.i0, g.ctx, g.model) == (h.candidates, h.i0, h.ctx, h.model)
            && h.trail <= g.trail
            && (g.phase.Proxying? ==>
                  && |g.trail| < |h.candidates|
                  && g.phase.probe == ProbeAt(h, backends, clock, |g.trail|))
    decreases |h.candidates| - |h.trail|
  {
    if |h.trail| < |h.candidates| {
      var probe := ProbeAt(h, backends, clock, |h.trail|);
      var verdict := Evaluate(probe.seen, h.ctx, probe.at, staleAfter);
      if !verdict.dec.allow {
        RunWalkStops(Skip(h, probe, verdict), backends, clock, staleAfter);
      }
    }
  }

  lemma {:induction false} RunWalkKeepsTrack(
      h: Handler, backends: map<Name, Backend>, clock: nat -> real, staleAfter: real)
    requires OnTrack(h) && h.phase.Walking?
    requires forall c <- h.candidates :: c in backends
    ensures OnTrack(RunWalk(h, backends, clock, staleAfter))
    decreases |h.candidates| - |h.trail|
  {
    if |h.trail| == |h.candidates| {
      ConcludeKeepsTrack(h);
    } else {
      var probe := ProbeAt(h, backends, clock, |h.trail|);
      var verdict := Evaluate(probe.seen, h.ctx, probe.at, staleAfter);
      if verdict.dec.allow {
        SameWalk(h, RunWalk(h, backends, clock, staleAfter));
      } else {
        SkipKeepsTrack(h, probe, verdict);
        RunWalkKeepsTrack(Skip(h, probe, verdict), backends, clock, staleAfter);
      }
    }
  }

  /** Every visit the walk adds is judged on the backend it saw. */
  lemma {:induction false} RunWalkJudges(
      h: Handler, backends: map<Name, Backend>, clock: nat -> real, staleAfter: real, settings: map<Name, Settings>)
    requires h.candidates != [] && h.phase.Walking? && Judged(h, staleAfter, settings)
    requires forall c <- h.candidates :: c in backends && c in settings && backends[c].settings == settings[c]
    ensures Judged(RunWalk(h, backends, clock, staleAfter), staleAfter, settings)
    decreases |h.candidates| - |h.trail|
  {
    if |h.trail| < |h.candidates| {
      var probe := ProbeAt(h, backends, clock, |h.trail|);
      var verdict := Evaluate(probe.seen, h.ctx, probe.at, staleAfter);
      assert probe.name in h.candidates;
      if !verdict.dec.allow {
        RunWalkJudges(Skip(h, probe, verdict), backends, clock, staleAfter, settings);
      }
    }
  }

  function AnswerOf(u: Upstream): Answer {
    if u.Unreachable? then TransportFailed else if u.status >= 500 then ServerError(u.status) else Served(u.status)
  }

  /** A received answer is added to the trail; the request is done exactly when the backend served it. */
  lemma ReceiveResult(h: Handler, u: Upstream)
    requires h.phase.Proxying? && h.candidates != []
    ensures var g := Receive(h, u);
            && (g.phase.Walking? || g.phase.Releasing? || g.phase.Done?)
            && (g.phase.Done? <==> u.Responded? && u.status < 500)
            && (g.phase.Done? ==> g.phase.response == Forwarded(u.status, h.phase.probe.name))
            && (g.candidates, g.i0, g.ctx, g.model) == (h.candidates, h.i0, h.ctx, h.model)
            && g.trail == h.trail + [Visit(h.phase.probe, AnswerOf(u))]
  {
  }

  lemma ReceiveKeepsTrack(h: Handler, u: Upstream)
    requires OnTrack(h) && h.phase.Proxying?
    ensures OnTrack(Receive(h, u))
  {
    var g := Receive(h, u);
    ReceiveRecords(h, u, g);
    ReceiveResult(h, u);
    if Fails(u) {
      FailureTracked(h, u, g);
    } else {
      ServiceTracked(h, u, g);
    }
  }

  lemma ReceiveRecords(h: Handler, u: Upstream, g: Handler)
    requires OnTrack(h) && h.phase.Proxying? && g == Receive(h, u)
    ensures Recorded(g)
    ensures Failovers(g, |h.trail|) == Failovers(h, |h.trail|)
    ensures Fails(u) ==> NoneServed(g.trail)
  {
    VisitKeepsOrder(h, g, Visit(h.phase.probe, AnswerOf(u)));
    ReceiveKeepsError(h, u, g);
    assert g.rejects == h.rejects && |g.trail| == |h.trail| + 1;
  }

  /** Only the last candidate's 5xx is kept. */
  lemma ReceiveKeepsError(h: Handler, u: Upstream, g: Handler)
    requires h.phase.Proxying? && |h.trail| < |h.candidates| && h.last5xx == LastServerError(h) && g == Receive(h, u)
    ensures g.last5xx == LastServerError(g)
  {
    assert g.trail == h.trail + [Visit(h.phase.probe, AnswerOf(u))];
  }

  lemma FailureTracked(h: Handler, u: Upstream, g: Handler)
    requires OnTrack(h) && h.phase.Proxying? && Fails(u) && g == Receive(h, u)
    requires Recorded(g) && NoneServed(g.trail) && Failovers(g, |h.trail|) == Failovers(h, |h.trail|)
    ensures OnTrack(g)
  {
    assert g.trail == h.trail + [Visit(h.phase.probe, AnswerOf(u))];
  }

  lemma ServiceTracked(h: Handler, u: Upstream, g: Handler)
    requires OnTrack(h) && h.phase.Proxying? && !Fails(u) && g == Receive(h, u)
    requires Recorded(g) && Failovers(g, |h.trail|) == Failovers(h, |h.trail|)
    ensures OnTrack(g)
  {
    assert g.trail[..|g.trail| - 1] == h.trail;
  }

  lemma ReceiveJudges(h: Handler, u: Upstream, staleAfter: real, settings: map<Name, Settings>)
    requires h.candidates != [] && h.phase.Proxying? && Judged(h, staleAfter, settings)
    ensures Judged(Receive(h, u), staleAfter, settings)
  {
    forall v <- Receive(h, u).trail ensures Justified(v, h.ctx, staleAfter) && SeenAs(v.probe, settings) {
      assert v in h.trail || v == Visit(h.phase.probe, AnswerOf(u));
    }
  }

  lemma ReleaseKeepsTrack(h: Handler)
    requires OnTrack(h) && (h.phase.Releasing? || h.phase.ReleasingLast?)
    ensures var g := Release(h);
            && OnTrack(g)
            && (g.phase.Walking? || (g.phase.Done? && !g.phase.response.Forwarded?))
            && (g.candidates, g.i0, g.ctx, g.model, g.trail) == (h.candidates, h.i0, h.ctx, h.model, h.trail)
  {
    SameWalk(h, Release(h));
  }

  lemma AbortKeepsTrack(h: Handler)
    requires OnTrack(h)
    ensures OnTrack(Abort(h))
  {
    SameWalk(h, Abort(h));
  }

  lemma BeginWalkOnTrack(model: Model, ctx: Option<nat>, candidates: seq<Name>, i0: nat)
    requires i0 < |candidates|
    ensures OnTrack(BeginWalk(model, ctx, candidates, i0))
  {
  }
}
