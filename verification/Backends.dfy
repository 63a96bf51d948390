/**
 The admission state of one backend (`BackendState` in src/gate/app.py with its caches and counter),
 what the walk decides about it, and the ledger of charges that explains its counter.
 */
module Backends {
  import opened Wrappers
  import opened Numbers
  import opened Router
  import opened Routing
  import opened Metrics

  type Id = nat

  /** The resolved per-backend knobs. */
  datatype Settings = Settings(thresholds: seq<Threshold>, targetFrac: real, auto: AutoPolicy)

  ghost predicate ValidSettings(x: Settings) {
    && DistinctTiers(x.thresholds)
    && (forall t <- x.thresholds :: 0.0 <= t.kvPct <= 100.0 && t.maxContext >= 1 && t.timeoutS >= 1)
    && 0.0 < x.targetFrac <= 1.0
    && x.auto.tokenMargin >= 1.0
    && 1 <= x.auto.retryMinS <= x.auto.retryMaxS
  }

  /** The usage cache. */
  datatype Feed = Feed(usage: Option<real>, fetchedAt: Option<real>, byModel: map<string, real>)

  /** The alert flags the poller's callbacks set. */
  datatype Flags = Flags(engine: Engine, capacityUnavailable: bool, metricsUnavailable: bool)

  datatype Backend = Backend(
    settings: Settings, feed: Feed, capacity: Option<nat>, counter: Option<int>, anchorSeq: nat, flags: Flags)

  function NewBackend(settings: Settings): Backend {
    Backend(settings, Feed(None, None, map[]), None, None, 0, Flags(Unknown, false, false))
  }

  predicate StaleFeed(f: Feed, now: real, staleAfter: real) {
    f.fetchedAt.None? || now - f.fetchedAt.value > staleAfter
  }

  predicate Stale(b: Backend, now: real, staleAfter: real) {
    b.feed.usage.None? || StaleFeed(b.feed, now, staleAfter)
  }

  /** The feed has a usage that was stored no longer than the bound ago. */
  ghost predicate Fed(b: Backend, now: real, staleAfter: real) {
    b.feed.usage.Some? && b.feed.fetchedAt.Some? && now - b.feed.fetchedAt.value <= staleAfter
  }

  // ----- the decision about one candidate -----

  datatype Verdict = Verdict(dec: Decision, usagePct: Option<real>)

  function Evaluate(b: Backend, ctx: Option<nat>, now: real, staleAfter: real): Verdict {
    if Stale(b, now, staleAfter) then
      Verdict(CombineDecisions(DecideTier(None, ctx, b.settings.thresholds),
          Decision(true, None, None, MetricsUnavailable)), None)
    else
      var pct := b.feed.usage.value * 100.0;
      Verdict(CombineDecisions(DecideTier(Some(pct), ctx, b.settings.thresholds),
                               DecideAuto(b.counter, ctx, b.settings.auto)), Some(pct))
  }

  /** The usage has crossed the tier; a tier at zero always counts as crossed. */
  ghost predicate Crossed(b: Backend, t: Threshold) {
    b.feed.usage.Some? && (t.kvPct <= b.feed.usage.value * 100.0 || t.kvPct == 0.0)
  }

  /** The crossed tier with the greatest percentage. */
  ghost predicate Governs(b: Backend, t: Threshold) {
    && t in b.settings.thresholds && Crossed(b, t)
    && forall u <- b.settings.thresholds | Crossed(b, u) :: u.kvPct <= t.kvPct
  }

  ghost predicate TierExceeded(b: Backend, ctx: nat, t: Threshold) {
    Governs(b, t) && ctx > t.maxContext
  }

  /** The governing tier is exceeded. */
  ghost predicate OverTier(b: Backend, ctx: nat) {
    exists t :: TierExceeded(b, ctx, t)
  }

  /** The remaining headroom is exceeded. */
  predicate OverHeadroom(b: Backend, ctx: nat) {
    b.counter.Some? && Charge(Some(ctx), b.settings.auto.tokenMargin) > b.counter.value
  }

  /** The wait a request over the headroom is asked for: the maximum when nothing remains, else the minimum and
      `minS * cost / remaining` rounded up, up to the maximum. */
  function HeadroomWait(b: Backend, ctx: nat): int
    requires b.counter.Some?
  {
    var cost, remaining, auto := Charge(Some(ctx), b.settings.auto.tokenMargin), b.counter.value, b.settings.auto;
    if remaining <= 0 then auto.retryMaxS
    else Min(auto.retryMaxS, auto.retryMinS + OverrunSeconds(cost, remaining, auto.retryMinS))
  }

  /** A reject for the tier's sake, and one for the headroom's. */
  ghost predicate ByTier(dec: Decision, t: Threshold) {
    dec == Decision(false, Some(t.timeoutS), Some(t), ExceedsTier)
  }

  ghost predicate ByHeadroom(dec: Decision, wait: int) {
    dec == Decision(false, Some(wait), None, AutoExceedsHeadroom)
  }

  /** The whole decision about a request of known size at a fed backend: what asks for the longer wait rejects it,
      the tier in case of a tie. */
  ghost predicate Explains(b: Backend, ctx: nat, dec: Decision) {
    && (forall t | TierExceeded(b, ctx, t) ::
          if OverHeadroom(b, ctx) && HeadroomWait(b, ctx) > t.timeoutS then ByHeadroom(dec, HeadroomWait(b, ctx))
          else ByTier(dec, t))
    && (!OverTier(b, ctx) ==>
          if OverHeadroom(b, ctx) then ByHeadroom(dec, HeadroomWait(b, ctx))
          else dec == Decision(true, None, None, if b.counter.None? then AutoUnanchored else Allowed))
  }

  /** The scan finds the governing tier, and there is at most one. */
  lemma ScanFindsGoverning(b: Backend)
    requires ValidSettings(b.settings) && b.feed.usage.Some?
    ensures forall t :: GoverningTier(ClampUsage(b.feed.usage.value * 100.0), b.settings.thresholds) == Some(t) <==>
                        Governs(b, t)
  {
    var pct, tiers := ClampUsage(b.feed.usage.value * 100.0), b.settings.thresholds;
    GoverningTierIsGreatest(pct, tiers);
    forall u <- tiers ensures Crossed(b, u) <==> u.kvPct <= pct {
      ClampOnlyMattersAtZero(b.feed.usage.value * 100.0, u.kvPct);
    }
    forall t ensures GoverningTier(pct, tiers) == Some(t) <==> Governs(b, t) {
      if Governs(b, t) {
        var g := GoverningTier(pct, tiers);
        assert g.Some? && Governs(b, g.value);
        SamePercentage(tiers, t, g.value);
      }
    }
  }

  lemma SamePercentage(tiers: seq<Threshold>, t: Threshold, u: Threshold)
    requires DistinctTiers(tiers) && t in tiers && u in tiers && t.kvPct == u.kvPct
    ensures t == u
  {
    var i :| 0 <= i < |tiers| && tiers[i] == t;
    var j :| 0 <= j < |tiers| && tiers[j] == u;
    assert tiers[i].kvPct == tiers[j].kvPct;
  }

  /** The tiered layer's decision about a request of known size. */
  lemma TierDecides(b: Backend, ctx: nat)
    requires ValidSettings(b.settings) && b.feed.usage.Some?
    ensures var dec := DecideTier(Some(b.feed.usage.value * 100.0), Some(ctx), b.settings.thresholds);
            && (forall t | TierExceeded(b, ctx, t) :: ByTier(dec, t))
            && (!OverTier(b, ctx) ==> dec.allow && dec.retryAfter.None? && dec.reason in {BelowAllTiers, WithinTier})
  {
    ScanFindsGoverning(b);
    var g := GoverningTier(ClampUsage(b.feed.usage.value * 100.0), b.settings.thresholds);
    if g.Some? && ctx > g.value.maxContext {
      assert TierExceeded(b, ctx, g.value);
    }
  }

  lemma AutoDecides(b: Backend, ctx: nat)
    requires ValidSettings(b.settings)
    ensures var dec := DecideAuto(b.counter, Some(ctx), b.settings.auto);
            if OverHeadroom(b, ctx) then ByHeadroom(dec, HeadroomWait(b, ctx))
            else dec == Decision(true, None, None, if b.counter.None? then AutoUnanchored else AutoWithinHeadroom)
  {
    DecideAutoRejects(b.counter, Some(ctx), b.settings.auto);
  }

  /** The gate's decision, from the fields alone: an old or absent feed and an unknown size are admitted, and
      otherwise tier and headroom decide. */
  lemma EvaluateExplained(b: Backend, ctx: Option<nat>, now: real, staleAfter: real)
    requires ValidSettings(b.settings)
    ensures var v := Evaluate(b, ctx, now, staleAfter);
            && (!Fed(b, now, staleAfter) ==> v == Verdict(Decision(true, None, None, MetricsUnavailable), None))
            && (Fed(b, now, staleAfter) ==> v.usagePct == Some(b.feed.usage.value * 100.0))
            && (Fed(b, now, staleAfter) && ctx.None? ==> v.dec == Decision(true, None, None, PromptUnparseable))
            && (Fed(b, now, staleAfter) && ctx.Some? ==> Explains(b, ctx.value, v.dec))
  {
    if Fed(b, now, staleAfter) && ctx.Some? {
      TierDecides(b, ctx.value);
      AutoDecides(b, ctx.value);
    }
  }

  /** A backend last refreshed longer ago than the bound is never rejected, whatever its counter holds; one
      refreshed within it is judged by its tier and its counter. */
  lemma OldFeedFailsOpen(b: Backend, ctx: Option<nat>, now: real, staleAfter: real)
    requires ValidSettings(b.settings)
    ensures b.feed.fetchedAt.Some? && now - b.feed.fetchedAt.value > staleAfter ==>
              Evaluate(b, ctx, now, staleAfter).dec.allow
    ensures b.feed.fetchedAt.None? || b.feed.usage.None? ==> Evaluate(b, ctx, now, staleAfter).dec.allow
    ensures b.feed.fetchedAt.Some? && b.feed.usage.Some? && now - b.feed.fetchedAt.value <= staleAfter && ctx.Some? ==>
              (Evaluate(b, ctx, now, staleAfter).dec.allow <==> !OverTier(b, ctx.value) && !OverHeadroom(b, ctx.value))
  {
    EvaluateRejectsIff(b, ctx, now, staleAfter);
  }

  /** A candidate is rejected exactly when its feed is fresh, the request's size is known, and its
      governing tier or its headroom is exceeded; a reject always names a wait. */
  lemma EvaluateRejectsIff(b: Backend, ctx: Option<nat>, now: real, staleAfter: real)
    requires ValidSettings(b.settings)
    ensures var dec := Evaluate(b, ctx, now, staleAfter).dec;
            && WellFormed(dec)
            && (!dec.allow <==>
                  && Fed(b, now, staleAfter) && ctx.Some?
                  && (OverTier(b, ctx.value) || OverHeadroom(b, ctx.value)))
  {
    EvaluateExplained(b, ctx, now, staleAfter);
    if ctx.Some? && OverTier(b, ctx.value) {
      var t :| TierExceeded(b, ctx.value, t);
    }
  }

  /** A rejected request is always asked to wait, at least a second. */
  lemma RejectWaits(b: Backend, ctx: Option<nat>, now: real, staleAfter: real)
    requires ValidSettings(b.settings) && !Evaluate(b, ctx, now, staleAfter).dec.allow
    ensures Evaluate(b, ctx, now, staleAfter).dec.retryAfter.Some?
    ensures Evaluate(b, ctx, now, staleAfter).dec.retryAfter.value >= 1
  {
    EvaluateRejectsIff(b, ctx, now, staleAfter);
    var pct := b.feed.usage.value * 100.0;
    GoverningTierIsGreatest(ClampUsage(pct), b.settings.thresholds);
    DecideAutoRejects(b.counter, ctx, b.settings.auto);
  }

  /** An admitted request fits the headroom of a fresh backend. */
  lemma AdmittedFits(b: Backend, ctx: Option<nat>, now: real, staleAfter: real)
    requires ValidSettings(b.settings) && Evaluate(b, ctx, now, staleAfter).dec.allow
    requires Fed(b, now, staleAfter) && b.counter.Some?
    ensures Charge(ctx, b.settings.auto.tokenMargin) <= Max(b.counter.value, 0)
    ensures ctx.Some? ==> Charge(ctx, b.settings.auto.tokenMargin) <= b.counter.value
  {
    EvaluateRejectsIff(b, ctx, now, staleAfter);
  }

  /** What selection sees of a backend. */
  function View(b: Backend, now: real, staleAfter: real): CandidateView {
    CandidateView(if Stale(b, now, staleAfter) then None else b.feed.usage, b.counter, b.capacity,
        b.settings.auto.tokenMargin)
  }

  /** The view hides the usage of a feed that is old or absent, and shows the rest as it is. */
  lemma ViewShows(b: Backend, now: real, staleAfter: real)
    ensures var v := View(b, now, staleAfter);
            && v.usageFrac == (if Fed(b, now, staleAfter) then b.feed.usage else None)
            && v.remainingTokens == b.counter && v.capacityTokens == b.capacity
            && v.tokenMargin == b.settings.auto.tokenMargin
  {
  }

  /** `fill` finds a candidate eligible exactly when the autoconfig layer would let it pass. */
  lemma FillEligibleIff(b: Backend, ctx: Option<nat>, now: real, staleAfter: real)
    ensures FillEligible(ctx, View(b, now, staleAfter)) <==>
            !Fed(b, now, staleAfter) || ctx.None? || !OverHeadroom(b, ctx.value)
  {
  }

  /** A candidate `fill` passes over is one the walk rejects. */
  lemma FillPassesOverRejects(b: Backend, ctx: Option<nat>, now: real, staleAfter: real)
    requires ValidSettings(b.settings) && !FillEligible(ctx, View(b, now, staleAfter))
    ensures !Evaluate(b, ctx, now, staleAfter).dec.allow
  {
    EvaluateRejectsIff(b, ctx, now, staleAfter);
  }

  // ----- the counter -----

  function Subtract(counter: Option<int>, tokens: int): Option<int> {
    if counter.Some? then Some(counter.value - tokens) else None
  }

  function Add(counter: Option<int>, tokens: int): Option<int> {
    if counter.Some? then Some(counter.value + tokens) else None
  }

  function Charged(b: Backend, charge: int): Backend {
    b.(counter := Subtract(b.counter, charge))
  }

  /** The guarded rollback: nothing is re-added once the backend was re-anchored. */
  function RolledBack(b: Backend, charge: int, seqBefore: nat): Backend {
    if b.anchorSeq == seqBefore then b.(counter := Add(b.counter, charge)) else b
  }

  // ----- the ledger behind the counter -----

  /** The last anchor with the sample it came from, and the charges in the counter since, by request. */
  datatype Ledger = Ledger(anchor: int, capacity: nat, usage: real, charges: map<Id, int>)

  const EMPTY_LEDGER := Ledger(0, 0, 0.0, map[])

  ghost function Sum(charges: map<Id, int>): int {
    if charges == map[] then 0
    else
      var id :| id in charges;
      charges[id] + Sum(charges - {id})
  }

  lemma {:induction false} SumRemove(charges: map<Id, int>, id: Id)
    requires id in charges
    ensures Sum(charges) == charges[id] + Sum(charges - {id})
    decreases |charges|
  {
    var first :| first in charges && Sum(charges) == charges[first] + Sum(charges - {first});
    if first != id {
      SumRemove(charges - {first}, id);
      SumRemove(charges - {id}, first);
      assert charges - {first} - {id} == charges - {id} - {first};
    }
  }

  lemma SumInsert(charges: map<Id, int>, id: Id, amount: int)
    requires id !in charges
    ensures Sum(charges[id := amount]) == Sum(charges) + amount
  {
    SumRemove(charges[id := amount], id);
    assert charges[id := amount] - {id} == charges;
  }

  lemma {:induction false} SumNonNegative(charges: map<Id, int>)
    requires forall id <- charges :: charges[id] >= 0
    ensures Sum(charges) >= 0
    ensures forall id <- charges :: charges[id] <= Sum(charges)
    decreases |charges|
  {
    forall id <- charges ensures 0 <= charges[id] <= Sum(charges) {
      SumNonNegative(charges - {id});
      SumRemove(charges, id);
    }
  }

  function ChargedLedger(l: Ledger, b: Backend, id: Id, charge: int): Ledger {
    if b.counter.Some? then l.(charges := l.charges[id := charge]) else l
  }

  function SettledLedger(l: Ledger, b: Backend, id: Id, seqBefore: nat): Ledger {
    if b.anchorSeq == seqBefore then l.(charges := l.charges - {id}) else l
  }

  /** The counter is its anchor less the outstanding charges, the anchor is the headroom of the sample
      the cached usage came from, and a fresh backend is not over-committed. */
  ghost predicate Accounted(b: Backend, l: Ledger, now: real, staleAfter: real) {
    && ValidSettings(b.settings)
    && (b.feed.usage.Some? <==> b.feed.fetchedAt.Some?)
    && (b.feed.fetchedAt.Some? ==> b.feed.fetchedAt.value <= now)
    && (b.counter.None? ==> l.charges == map[])
    && (forall id <- l.charges :: l.charges[id] >= 0)
    && (b.counter.Some? ==>
          && b.counter.value == l.anchor - Sum(l.charges)
          && l.anchor == AnchorRemainingTokens(l.capacity, b.settings.targetFrac, l.usage)
          && b.feed.usage == Some(l.usage)
          && (Fed(b, now, staleAfter) ==> b.counter.value >= 0))
  }

  /** Time alone only makes a backend stale. */
  lemma AccountedLater(b: Backend, l: Ledger, now: real, later: real, staleAfter: real)
    requires Accounted(b, l, now, staleAfter) && now <= later
    ensures Accounted(b, l, later, staleAfter)
  {
  }

  /** An admitted request's charge enters the ledger with the counter. */
  lemma ChargeKeepsAccounts(b: Backend, l: Ledger, id: Id, ctx: Option<nat>, at: real, now: real, staleAfter: real)
    requires Accounted(b, l, at, staleAfter) && at <= now && id !in l.charges
    requires Evaluate(b, ctx, at, staleAfter).dec.allow
    ensures var charge := Charge(ctx, b.settings.auto.tokenMargin);
            Accounted(Charged(b, charge), ChargedLedger(l, b, id, charge), now, staleAfter)
  {
    var charge := Charge(ctx, b.settings.auto.tokenMargin);
    ChargeCoversRequest(ctx, b.settings.auto.tokenMargin);
    if b.counter.Some? {
      SumInsert(l.charges, id, charge);
      if Fed(b, at, staleAfter) {
        AdmittedFits(b, ctx, at, staleAfter);
      }
    }
  }

  /** A guarded rollback takes exactly the request's own charge out of the ledger. */
  lemma RollbackKeepsAccounts(b: Backend, l: Ledger, id: Id, charge: int, seqBefore: nat, now: real, staleAfter: real)
    requires Accounted(b, l, now, staleAfter)
    requires b.anchorSeq == seqBefore && b.counter.Some? ==> id in l.charges && l.charges[id] == charge
    ensures Accounted(RolledBack(b, charge, seqBefore), SettledLedger(l, b, id, seqBefore), now, staleAfter)
  {
    if b.anchorSeq == seqBefore && b.counter.Some? {
      SumRemove(l.charges, id);
      assert charge >= 0;
    }
  }

  /** What accounting means for admission: between zero and the anchor while the feed is fresh, and never
      more charged against an anchor than the headroom it was computed from. */
  lemma AccountedIsNotOversubscribed(b: Backend, l: Ledger, now: real, staleAfter: real)
    requires Accounted(b, l, now, staleAfter) && b.counter.Some?
    ensures b.counter.value <= l.anchor
    ensures Fed(b, now, staleAfter) ==>
              && 0 <= b.counter.value
              && 0 <= Sum(l.charges) <= l.anchor
              && FitsBelowTarget(Sum(l.charges), l.capacity, b.settings.targetFrac, b.feed.usage.value)
  {
    SumNonNegative(l.charges);
    AnchorWithinHeadroom(l.capacity, b.settings.targetFrac, l.usage);
  }
}
