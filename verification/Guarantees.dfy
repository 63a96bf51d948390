/** What the invariants mean: the gate's promises, for every run. */
module Guarantees {
  import opened Wrappers
  import opened Numbers
  import opened Router
  import opened Routing
  import opened Metrics
  import opened Backends
  import opened Polling
  import opened Walk
  import opened Registry
  import opened Gate
  import opened Invariants
  import opened Runs

  // ----- the counters -----

  lemma BooksAreKept(su: Setup, s: State, n: Name)
    requires Reachable(su, s) && n in su.names
    ensures n in s.backends && n in s.ledgers && n in su.settings && s.backends[n].settings == su.settings[n]
    ensures Accounted(s.backends[n], s.ledgers[n], s.now, su.staleAfter)
  {
    ReachableInv(su, s);
  }

  /** No over-subscription while fresh: a counter whose feed is fresh is unanchored or between zero and
      its anchor, and the charges against the anchor stay within the headroom left by the cached usage. */
  lemma FreshIsNotOversubscribed(su: Setup, s: State, n: Name)
    requires Reachable(su, s) && n in su.names
    ensures n in s.backends && n in s.ledgers &&
            var b, l := s.backends[n], s.ledgers[n];
            b.feed.fetchedAt.Some? && s.now - b.feed.fetchedAt.value <= su.staleAfter && b.counter.Some? ==>
              && 0 <= b.counter.value <= l.anchor
              && 0 <= Sum(l.charges) <= l.anchor
              && b.feed.usage.Some?
              && FitsBelowTarget(Sum(l.charges), l.capacity, su.settings[n].targetFrac, b.feed.usage.value)
  {
    BooksAreKept(su, s, n);
    if s.backends[n].counter.Some? {
      AccountedIsNotOversubscribed(s.backends[n], s.ledgers[n], s.now, su.staleAfter);
    }
  }

  /** Conservation: fresh or stale, an anchored counter is its last anchor less the outstanding charges,
      each the cost of a request that holds it there, so it never exceeds the anchor. */
  lemma CounterIsAnchorLessCharges(su: Setup, s: State, n: Name)
    requires Reachable(su, s) && n in su.names
    ensures n in s.backends && n in s.ledgers &&
            var b, l := s.backends[n], s.ledgers[n];
            && (b.counter.Some? ==> b.counter.value == l.anchor - Sum(l.charges) && b.counter.value <= l.anchor)
            && (b.counter.None? ==> l.charges == map[])
            && forall id <- l.charges ::
                 && id in s.handlers && HoldingAt(s.handlers[id]) == Some(n)
                 && l.charges[id] == Charge(s.handlers[id].ctx, su.settings[n].auto.tokenMargin)
  {
    ReachableInv(su, s);
    if s.backends[n].counter.Some? {
      AccountedIsNotOversubscribed(s.backends[n], s.ledgers[n], s.now, su.staleAfter);
    }
    forall id <- s.ledgers[n].charges
      ensures id in s.handlers && HoldingAt(s.handlers[id]) == Some(n)
              && s.ledgers[n].charges[id] == Charge(s.handlers[id].ctx, su.settings[n].auto.tokenMargin)
    {
      assert LinkedAt(s, n, id);
    }
  }

  lemma LinkedIsCredited(h: Handler, b: Backend, l: Ledger, id: Id)
    requires h.phase.Proxying? && Linked(h, h.phase.probe.name, b, l, id)
    ensures RolledBack(b, h.phase.charge, h.phase.seqBefore).counter ==
            if id in l.charges && b.counter.Some? then Some(b.counter.value + l.charges[id]) else b.counter
    ensures b.counter.Some? && h.phase.seqBefore == b.anchorSeq ==>
              id in l.charges && l.charges[id] == Charge(h.ctx, b.settings.auto.tokenMargin)
  {
  }

  lemma WaitingIsLinked(su: Setup, s: State, id: Id)
    requires Reachable(su, s) && id in s.handlers && s.handlers[id].phase.Proxying?
    ensures var n := s.handlers[id].phase.probe.name;
            n in s.backends && n in s.ledgers && Linked(s.handlers[id], n, s.backends[n], s.ledgers[n], id)
  {
    ReachableInv(su, s);
    var h := s.handlers[id];
    assert HandlerOk(su, h);
    assert CandidateAt(h, |h.trail|) in h.candidates;
    assert LinkedAt(s, h.phase.probe.name, id);
  }

  /** A rollback credits exactly the charge its request has in the current anchor, or nothing: never an
      anchor it was not charged against, also across an unanchor that left the sequence alone. While the
      sequence is the one it was charged under and the counter is anchored, the charge is there in full. */
  lemma RollbackCreditsOwnCharge(su: Setup, s: State, id: Id)
    requires Reachable(su, s) && id in s.handlers && s.handlers[id].phase.Proxying?
    ensures var h := s.handlers[id];
            var n := h.phase.probe.name;
            n in s.backends && n in s.ledgers &&
            var b, l := s.backends[n], s.ledgers[n];
            && RolledBack(b, h.phase.charge, h.phase.seqBefore).counter ==
               (if id in l.charges && b.counter.Some? then Some(b.counter.value + l.charges[id]) else b.counter)
            && (b.counter.Some? && h.phase.seqBefore == b.anchorSeq ==>
                  id in l.charges && l.charges[id] == Charge(h.ctx, b.settings.auto.tokenMargin))
  {
    WaitingIsLinked(su, s, id);
    var h := s.handlers[id];
    LinkedIsCredited(h, s.backends[h.phase.probe.name], s.ledgers[h.phase.probe.name], id);
  }

  /** Net charge: a finished request that no backend served has no charge outstanding anywhere; a served
      one has at most its own cost, on the backend that served it; an aborted one at most its own cost, on
      the backend whose answer it was waiting for. */
  lemma NetCharge(su: Setup, s: State, id: Id, n: Name)
    requires Reachable(su, s) && n in su.names
    requires id in s.handlers
    ensures n in s.backends && n in s.ledgers &&
            var h, charges := s.handlers[id], s.ledgers[n].charges;
            && (h.phase.Done? && id in charges ==> h.phase.response.Forwarded? && h.phase.response.backend == n)
            && (h.phase.Aborted? && id in charges ==> h.phase.holding == Some(n))
            && (h.phase.Reading? || h.phase.Releasing? || h.phase.ReleasingLast? ==> id !in charges)
            && (id in charges ==> charges[id] == Charge(h.ctx, su.settings[n].auto.tokenMargin))
  {
    ReachableInv(su, s);
    assert LinkedAt(s, n, id);
  }

  // ----- the walks -----

  lemma UnderwayWhenReachable(su: Setup, s: State, id: Id)
    requires Reachable(su, s) && id in s.handlers
    requires s.handlers[id].candidates != []
    ensures Underway(su, s.handlers[id])
  {
    ReachableInv(su, s);
    assert HandlerOk(su, s.handlers[id]);
  }

  /** Two different visits are at different positions. */
  lemma RotationDistinct(n: nat, i0: nat, j: nat, k: nat)
    requires i0 < n && j < k < n
    ensures (i0 + j) % n != (i0 + k) % n
  {
    RotationWraps(n, i0, j);
    RotationWraps(n, i0, k);
  }

  lemma RotationWraps(n: nat, i0: nat, k: nat)
    requires i0 < n && k < n
    ensures (i0 + k) % n == if i0 + k < n then i0 + k else i0 + k - n
  {
    if i0 + k >= n {
      assert (i0 + k - n) % n == i0 + k - n;
    }
  }

  /** The walk visits no candidate twice. */
  lemma NoneVisitedTwice(h: Handler, j: nat, k: nat)
    requires Recorded(h) && Distinct(h.candidates) && j < k < |h.trail|
    ensures h.trail[j].probe.name != h.trail[k].probe.name
  {
    RotationDistinct(|h.candidates|, h.i0, j, k);
    assert h.trail[j].probe.name == CandidateAt(h, j) && h.trail[k].probe.name == CandidateAt(h, k);
  }

  /** Once exhausted it has visited them all, starting from the selected one and wrapping. */
  lemma AllVisited(h: Handler, p: nat)
    requires Recorded(h) && |h.trail| == |h.candidates| && p < |h.candidates|
    ensures var k := if p >= h.i0 then p - h.i0 else p - h.i0 + |h.candidates|;
            k < |h.trail| && h.trail[k].probe.name == h.candidates[p]
  {
    var k := if p >= h.i0 then p - h.i0 else p - h.i0 + |h.candidates|;
    RotationWraps(|h.candidates|, h.i0, k);
    assert h.trail[k].probe.name == CandidateAt(h, k);
  }

  /** Every request of every run visits its candidates in rotated order, each at most once, and all of them
      before it is answered without service. */
  lemma VisitsInRotatedOrder(su: Setup, s: State, id: Id)
    requires Reachable(su, s) && id in s.handlers && s.handlers[id].candidates != []
    ensures var h := s.handlers[id];
            && (forall k | 0 <= k < |h.trail| :: h.trail[k].probe.name == CandidateAt(h, k))
            && (forall j, k | 0 <= j < k < |h.trail| :: h.trail[j].probe.name != h.trail[k].probe.name)
            && (h.phase.Done? && !h.phase.response.Forwarded? ==>
               forall c <- h.candidates :: exists v <- h.trail :: v.probe.name == c)
  {
    UnderwayWhenReachable(su, s, id);
    var h := s.handlers[id];
    forall j, k | 0 <= j < k < |h.trail| ensures h.trail[j].probe.name != h.trail[k].probe.name {
      NoneVisitedTwice(h, j, k);
    }
    if h.phase.Done? && !h.phase.response.Forwarded? {
      forall c <- h.candidates ensures exists v <- h.trail :: v.probe.name == c {
        var p :| 0 <= p < |h.candidates| && h.candidates[p] == c;
        AllVisited(h, p);
      }
    }
  }

  ghost predicate SomeRejected(h: Handler) {
    exists v <- h.trail :: v.answer.Rejected?
  }

  ghost predicate SomeServed(h: Handler) {
    exists v <- h.trail :: v.answer.Served?
  }

  /** A finished request's answer, from how the candidates answered: served iff one of them served it,
      and then by the last one visited; else 429 iff some rejected, the last candidate's 5xx iff none
      rejected and the last answered one, 502 iff none rejected and the last failed in transport. */
  ghost predicate Classified(h: Handler)
    requires h.phase.Done?
  {
    var response := h.phase.response;
    && h.trail != []
    && (var last := h.trail[|h.trail| - 1];
        && (response.Forwarded? <==> SomeServed(h))
        && (response.Forwarded? ==> last.answer == Served(response.status) && last.probe.name == response.backend)
        && (!response.Forwarded? ==> |h.trail| == |h.candidates|)
        && (response.TooManyRequests? <==> !SomeServed(h) && SomeRejected(h))
        && (response.Propagated? <==> !SomeServed(h) && !SomeRejected(h) && last.answer.ServerError?)
        && (response.Propagated? ==> last.answer == ServerError(response.status) && last.probe.name == response.backend)
        && (response.BadGateway? <==> !SomeServed(h) && !SomeRejected(h) && last.answer.TransportFailed?))
  }

  lemma FinishedIsClassified(h: Handler)
    requires OnTrack(h) && h.phase.Done?
    ensures Classified(h)
  {
    if h.phase.response.TooManyRequests? {
      var k :| 0 <= k < |h.trail| && FirstAskingAt(h.trail, k, h.phase.response.retryAfter);
      assert h.trail[k] in h.trail;
    }
    assert h.trail[|h.trail| - 1] in h.trail;
  }

  lemma ExhaustionRule(su: Setup, s: State, id: Id)
    requires Reachable(su, s) && id in s.handlers && s.handlers[id].phase.Done?
    ensures Classified(s.handlers[id])
  {
    ReachableInv(su, s);
    assert HandlerOk(su, s.handlers[id]);
    FinishedIsClassified(s.handlers[id]);
  }

  /** A 429's wait is the greatest over the rejects, and the named rejector is the first in walk order
      that asks for it. */
  ghost predicate NamesWorstReject(h: Handler)
    requires h.phase.Done? && h.phase.response.TooManyRequests?
  {
    var response := h.phase.response;
    && (forall v <- h.trail | v.answer.Rejected? ::
          v.answer.verdict.dec.retryAfter.Some? && v.answer.verdict.dec.retryAfter.value <= response.retryAfter)
    && exists k :: 0 <= k < |h.trail| && FirstWorst(h.trail, k, response.retryAfter)
                && response.rejector == Reject(h.trail[k].probe.name, h.trail[k].answer.verdict)
  }

  ghost predicate FirstWorst(trail: seq<Visit>, k: nat, retry: int)
    requires k < |trail|
  {
    && trail[k].answer.Rejected? && trail[k].answer.verdict.dec.retryAfter == Some(retry)
    && forall j | 0 <= j < k && trail[j].answer.Rejected? :: RetryOf(trail[j].answer.verdict) < retry
  }

  /** A recorded reject is one the gate was entitled to: when the candidate was judged its usage had been fetched no
      longer than the bound ago, the request's size is known, and the governing tier or the remaining headroom is
      exceeded; its wait, reason and tier are those of whichever asks for the longer wait. */
  ghost predicate Warranted(v: Visit, ctx: Option<nat>, staleAfter: real)
    requires v.answer.Rejected?
  {
    var b, dec := v.probe.seen, v.answer.verdict.dec;
    && b.feed.usage.Some? && b.feed.fetchedAt.Some? && v.probe.at - b.feed.fetchedAt.value <= staleAfter
    && ctx.Some? && (OverTier(b, ctx.value) || OverHeadroom(b, ctx.value))
    && Explains(b, ctx.value, dec)
    && dec.retryAfter.Some? && dec.retryAfter.value >= 1
  }

  /** And no other visit was entitled to one: the candidate's feed was old or absent, the size is unknown, or neither
      tier nor headroom is exceeded. */
  ghost predicate Admissible(v: Visit, ctx: Option<nat>, staleAfter: real) {
    var b := v.probe.seen;
    b.feed.usage.Some? && b.feed.fetchedAt.Some? && v.probe.at - b.feed.fetchedAt.value <= staleAfter && ctx.Some? ==>
      !OverTier(b, ctx.value) && !OverHeadroom(b, ctx.value)
  }

  lemma RejectIsWarranted(su: Setup, h: Handler, v: Visit)
    requires ValidSetup(su) && Underway(su, h) && v in h.trail && v.answer.Rejected?
    ensures Warranted(v, h.ctx, su.staleAfter)
  {
    VisitSawValidSettings(su, h, v);
    EvaluateRejectsIff(v.probe.seen, h.ctx, v.probe.at, su.staleAfter);
    EvaluateExplained(v.probe.seen, h.ctx, v.probe.at, su.staleAfter);
    RejectWaits(v.probe.seen, h.ctx, v.probe.at, su.staleAfter);
  }

  lemma AdmissionIsWarranted(su: Setup, h: Handler, v: Visit)
    requires ValidSetup(su) && Underway(su, h) && v in h.trail && !v.answer.Rejected?
    ensures Admissible(v, h.ctx, su.staleAfter)
  {
    VisitSawValidSettings(su, h, v);
    EvaluateRejectsIff(v.probe.seen, h.ctx, v.probe.at, su.staleAfter);
  }

  lemma VisitSawValidSettings(su: Setup, h: Handler, v: Visit)
    requires ValidSetup(su) && Underway(su, h) && v in h.trail
    ensures ValidSettings(v.probe.seen.settings)
  {
    var k :| 0 <= k < |h.trail| && h.trail[k] == v;
    assert CandidateAt(h, k) in h.candidates;
  }

  lemma WorstRejectNamed(su: Setup, h: Handler)
    requires OnTrack(h) && h.phase.Done? && h.phase.response.TooManyRequests?
    requires forall v <- h.trail | v.answer.Rejected? :: v.answer.verdict.dec.retryAfter.Some?
    ensures NamesWorstReject(h)
  {
    var retry := h.phase.response.retryAfter;
    var k :| 0 <= k < |h.trail| && FirstAskingAt(h.trail, k, retry)
             && h.phase.response.rejector == Reject(h.trail[k].probe.name, h.trail[k].answer.verdict);
    assert h.trail[k] in h.trail;
    forall j | 0 <= j < k && h.trail[j].answer.Rejected? ensures RetryOf(h.trail[j].answer.verdict) < retry {
      assert h.trail[j] in h.trail;
    }
    assert FirstWorst(h.trail, k, retry);
  }

  lemma RetryAfterRule(su: Setup, s: State, id: Id)
    requires Reachable(su, s) && id in s.handlers
    requires s.handlers[id].phase.Done? && s.handlers[id].phase.response.TooManyRequests?
    ensures NamesWorstReject(s.handlers[id])
  {
    ReachableInv(su, s);
    var h := s.handlers[id];
    assert HandlerOk(su, h);
    forall v <- h.trail | v.answer.Rejected? ensures v.answer.verdict.dec.retryAfter.Some? {
      RejectIsWarranted(su, h, v);
    }
    WorstRejectNamed(su, h);
  }

  // ----- fail-open -----

  /** Fail-open over the whole walk: every reject is warranted and every other visit was not to be rejected; so a
      request of unknown size never gets a 429, and neither does one whose candidates all had old feeds when judged,
      whatever their counters held. */
  ghost predicate FailsOpen(h: Handler, staleAfter: real) {
    && (forall v <- h.trail | v.answer.Rejected? :: Warranted(v, h.ctx, staleAfter))
    && (forall v <- h.trail | !v.answer.Rejected? :: Admissible(v, h.ctx, staleAfter))
    && (h.phase.Done? && h.phase.response.TooManyRequests? ==>
          && h.ctx.Some?
          && exists v <- h.trail :: Fed(v.probe.seen, v.probe.at, staleAfter))
  }

  lemma VisitsAreWarranted(su: Setup, h: Handler)
    requires ValidSetup(su) && Underway(su, h)
    ensures forall v <- h.trail | v.answer.Rejected? :: Warranted(v, h.ctx, su.staleAfter)
    ensures forall v <- h.trail | !v.answer.Rejected? :: Admissible(v, h.ctx, su.staleAfter)
  {
    forall v <- h.trail | v.answer.Rejected? ensures Warranted(v, h.ctx, su.staleAfter) {
      RejectIsWarranted(su, h, v);
    }
    forall v <- h.trail | !v.answer.Rejected? ensures Admissible(v, h.ctx, su.staleAfter) {
      AdmissionIsWarranted(su, h, v);
    }
  }

  lemma WalkFailsOpen(su: Setup, h: Handler)
    requires ValidSetup(su) && Underway(su, h)
    ensures FailsOpen(h, su.staleAfter)
  {
    VisitsAreWarranted(su, h);
    if h.phase.Done? && h.phase.response.TooManyRequests? {
      FinishedIsClassified(h);
      RefusalSawFreshFeed(h, su.staleAfter);
    }
  }

  lemma RefusalSawFreshFeed(h: Handler, staleAfter: real)
    requires h.phase.Done? && h.phase.response.TooManyRequests? && Classified(h)
    requires forall v <- h.trail | v.answer.Rejected? :: Warranted(v, h.ctx, staleAfter)
    ensures h.ctx.Some? && exists v <- h.trail :: Fed(v.probe.seen, v.probe.at, staleAfter)
  {
    var v :| v in h.trail && v.answer.Rejected?;
    assert Warranted(v, h.ctx, staleAfter);
  }

  lemma FailOpenRule(su: Setup, s: State, id: Id)
    requires Reachable(su, s) && id in s.handlers
    ensures FailsOpen(s.handlers[id], su.staleAfter)
  {
    ReachableInv(su, s);
    assert HandlerOk(su, s.handlers[id]);
    if s.handlers[id].candidates != [] {
      WalkFailsOpen(su, s.handlers[id]);
    }
  }

  // ----- accounting -----

  /** A finished request made one failover record per consecutive pair of candidates up to the last one it
      tried, with the reason the first of the pair was left, then exactly one forwarded-or-rejected record,
      and one rejection record iff it was rejected. */
  ghost predicate Accounts(h: Handler)
    requires h.phase.Done? && h.candidates != [] && h.trail != []
  {
    var m, response := |h.trail| - 1, h.phase.response;
    var rejected := response.TooManyRequests? || response.BadGateway?;
    && |h.records| == m + (if rejected then 2 else 1)
    && (forall k | 0 <= k < m ::
          var cause := match h.trail[k].answer
                       case Rejected(_) => OnReject
                       case TransportFailed => OnTransport
                       case ServerError(_) => OnServerError
                       case Served(_) => OnServerError;
          h.records[k] == RecordFailover(CandidateAt(h, k), CandidateAt(h, k + 1), cause))
    && (match response
        case Forwarded(_, backend) => h.records[m] == RecordForwarded(backend)
        case Propagated(_, backend) => h.records[m] == RecordForwarded(backend)
        case TooManyRequests(_, rejector) =>
          && h.records[m] == RecordRejected(Some(rejector.name))
          && var tier := match rejector.verdict.dec.activeTier case Some(t) => t.kvPct case None => 0.0;
             h.records[m + 1] == RecordRejection(Some(rejector.name), Gate(rejector.verdict.dec.reason), tier)
        case BadGateway =>
          && h.records[m] == RecordRejected(None)
          && h.records[m + 1] == RecordRejection(None, AllBackendsFailed, 0.0))
  }

  lemma {:induction false} FailoversArePairs(h: Handler, m: nat)
    requires h.candidates != [] && m <= |h.trail| && m <= |h.candidates|
    ensures |Failovers(h, m)| == if m < |h.candidates| then m else m - 1
    ensures forall k | 0 <= k < |Failovers(h, m)| ::
              Failovers(h, m)[k] == RecordFailover(CandidateAt(h, k), CandidateAt(h, k + 1),
                  ReasonOf(h.trail[k].answer))
  {
    if m == 0 {
    } else {
      FailoversArePairs(h, m - 1);
    }
  }

  lemma FinishedRecords(h: Handler)
    requires OnTrack(h) && h.phase.Done? && h.trail != []
    ensures var m := |h.trail| - 1;
            && m <= |h.records| && h.records[m..] == ClosingRecords(h.phase.response)
            && forall k | 0 <= k < m ::
                 h.records[k] == RecordFailover(CandidateAt(h, k), CandidateAt(h, k + 1), ReasonOf(h.trail[k].answer))
  {
    var m := if h.phase.response.Forwarded? then |h.trail| - 1 else |h.trail|;
    FailoversArePairs(h, m);
    assert h.records == Failovers(h, m) + ClosingRecords(h.phase.response);
  }

  lemma FinishedAccounts(h: Handler)
    requires OnTrack(h) && h.phase.Done? && h.trail != []
    ensures Accounts(h)
  {
    FinishedRecords(h);
    var closing := h.records[|h.trail| - 1..];
    assert forall j | 0 <= j < |closing| :: closing[j] == h.records[|h.trail| - 1 + j];
  }

  lemma AccountingRule(su: Setup, s: State, id: Id)
    requires Reachable(su, s) && id in s.handlers && s.handlers[id].phase.Done?
    ensures s.handlers[id].candidates != [] && s.handlers[id].trail != [] && Accounts(s.handlers[id])
  {
    ReachableInv(su, s);
    var h := s.handlers[id];
    assert HandlerOk(su, h);
    FinishedIsClassified(h);
    FinishedAccounts(h);
  }

  // ----- the pollers -----

  /** Each backend's flags are the levels of its poller's history, no callback repeats a value, warnings
      are the entries into unavailable, and its counter is anchored iff some body anchored it and no body
      without capacity was observed since, whatever the requests did meanwhile. */
  lemma SignalsFollowHistory(su: Setup, s: State, n: Name)
    requires Reachable(su, s) && n in su.names
    ensures n in s.backends && PolledAt(s, n)
  {
    ReachableInv(su, s);
  }

  // ----- the registry -----

  /** The sync an event makes in a state, if any: the explicit models whatever the fetch gave, else the discovered
      ones when it succeeded. */
  function SyncOf(su: Setup, s: State, e: Event): seq<SyncCall> {
    if e.Discovered? && e.name in s.pollers && s.pollers[e.name].phase.Discovering? && e.name in su.explicit then
      if su.explicit[e.name] != [] then [SyncCall(e.name, set m | m in su.explicit[e.name])]
      else if e.models.Some? then [SyncCall(e.name, set m | m in e.models.value)]
      else []
    else []
  }

  ghost function Syncs(su: Setup, events: seq<Event>): seq<SyncCall>
    requires ValidSetup(su)
  {
    if events == [] then []
    else
      var earlier := events[..|events| - 1];
      Syncs(su, earlier) + SyncOf(su, Run(su, earlier), events[|events| - 1])
  }

  lemma WalkingSyncsNothing(su: Setup, s: State, id: Id, h: Handler, clock: nat -> real)
    requires Known(s, h)
    ensures var t := WalkOn(su, s, id, h, clock); (t.registry, t.pollers) == (s.registry, s.pollers)
  {
    RunWalkStops(h, s.backends, clock, su.staleAfter);
  }

  lemma ReadingSyncsNothing(su: Setup, s: State, id: Id, model: Model, ctx: Option<nat>, clock: nat -> real)
    ensures var t := OnReadBody(su, s, id, model, ctx, clock); (t.registry, t.pollers) == (s.registry, s.pollers)
  {
    var r := ResolveCandidates(su, s.registry, model);
    if r.candidates != [] && forall c <- r.candidates :: c in s.backends && c in s.ledgers {
      WalkingSyncsNothing(su, s, id, Started(su, s, model, ctx, clock), clock);
    }
  }

  lemma AnsweringSyncsNothing(su: Setup, s: State, id: Id, u: Upstream, clock: nat -> real)
    ensures var t := OnAnswered(su, s, id, u, clock); (t.registry, t.pollers) == (s.registry, s.pollers)
  {
    if id in s.handlers && s.handlers[id].phase.Proxying? && Known(s, s.handlers[id])
       && s.handlers[id].phase.probe.name in s.backends && s.handlers[id].phase.probe.name in s.ledgers
    {
      var h := s.handlers[id];
      var g := Receive(h, u);
      var settled := Settle(s, id, h, g);
      assert (settled.registry, settled.pollers) == (s.registry, s.pollers);
      if g.phase.Walking? {
        WalkingSyncsNothing(su, settled, id, g, clock);
      }
    }
  }

  lemma ReleasingSyncsNothing(su: Setup, s: State, id: Id, clock: nat -> real)
    ensures var t := OnReleased(su, s, id, clock); (t.registry, t.pollers) == (s.registry, s.pollers)
  {
    if id in s.handlers && (s.handlers[id].phase.Releasing? || s.handlers[id].phase.ReleasingLast?)
       && Known(s, s.handlers[id]) && s.handlers[id].trail != []
    {
      var g := Release(s.handlers[id]);
      if g.phase.Walking? {
        WalkingSyncsNothing(su, s, id, g, clock);
      }
    }
  }

  lemma OtherEventsSyncNothing(su: Setup, s: State, e: Event)
    requires !e.Discovered?
    ensures Step(su, s, e).registry == s.registry && Step(su, s, e).pollers.Keys == s.pollers.Keys
  {
    match e
    case ReadBody(id, model, ctx, clock) => ReadingSyncsNothing(su, s, id, model, ctx, clock);
    case Answered(id, u, clock) => AnsweringSyncsNothing(su, s, id, u, clock);
    case Released(id, clock) => ReleasingSyncsNothing(su, s, id, clock);
    case _ =>
  }

  lemma StepSyncs(su: Setup, s: State, e: Event)
    ensures Step(su, s, e).registry == Play(s.registry, SyncOf(su, s, e))
  {
    if e.Discovered? {
      assert SyncOf(su, s, e) != [] ==> SyncOf(su, s, e)[..0] == [];
    } else {
      OtherEventsSyncNothing(su, s, e);
    }
  }

  lemma {:induction false} PlayAppends(r: Registry, calls: seq<SyncCall>, more: seq<SyncCall>)
    requires |more| <= 1
    ensures Play(r, calls + more) == Play(Play(r, calls), more)
  {
    if more == [] {
      assert calls + more == calls;
    } else {
      assert (calls + more)[..|calls|] == calls;
      assert more[..0] == [];
    }
  }

  lemma {:induction false} RegistryFollowsSyncs(su: Setup, events: seq<Event>)
    requires ValidSetup(su)
    ensures Run(su, events).registry == Play(RegisterAll(su.names, su.defaultName), Syncs(su, events))
  {
    if events == [] {
    } else {
      var earlier := events[..|events| - 1];
      var s := Run(su, earlier);
      RegistryFollowsSyncs(su, earlier);
      StepSyncs(su, s, events[|events| - 1]);
      PlayAppends(RegisterAll(su.names, su.defaultName), Syncs(su, earlier), SyncOf(su, s, events[|events| - 1]));
    }
  }

  /** After every run the candidates of a model are the configured backends, in order, whose last sync
      included it. */
  lemma CandidatesAfterRun(su: Setup, events: seq<Event>, model: Model)
    requires ValidSetup(su)
    ensures var r := RegisterAll(su.names, su.defaultName);
            Candidates(Run(su, events).registry, model) ==
            Filter(su.names, b => model in LastSynced(r, Syncs(su, events), b))
  {
    RegistryFollowsSyncs(su, events);
    RegisteredInOrder(su.names, su.defaultName);
    CandidatesFollowLastSync(RegisterAll(su.names, su.defaultName), Syncs(su, events), model);
  }

  /** Every run has one poller per configured backend. */
  lemma {:induction false} PollersAreConfigured(su: Setup, events: seq<Event>)
    requires ValidSetup(su)
    ensures Run(su, events).pollers.Keys == set n | n in su.names
  {
    if events == [] {
    } else {
      var s, e := Run(su, events[..|events| - 1]), events[|events| - 1];
      PollersAreConfigured(su, events[..|events| - 1]);
      if !e.Discovered? {
        OtherEventsSyncNothing(su, s, e);
      }
    }
  }
}
