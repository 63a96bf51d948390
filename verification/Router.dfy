/**
 The two admission layers (src/gate/router.py): the tiered policy over usage percentages and
 the autoconfig policy over token counts, and how their decisions combine.
 */
module Router {
  import opened Wrappers
  import opened Numbers

  /** One tier: from `kvPct` percent usage on, requests over `maxContext` tokens wait `timeoutS` seconds. */
  datatype Threshold = Threshold(kvPct: real, maxContext: int, timeoutS: int)

  datatype AutoPolicy = AutoPolicy(tokenMargin: real, retryMinS: int, retryMaxS: int)

  datatype Reason =
    | MetricsUnavailable | PromptUnparseable | BelowAllTiers | WithinTier | ExceedsTier
    | AutoUnanchored | AutoWithinHeadroom | AutoExceedsHeadroom | Allowed

  datatype Decision = Decision(allow: bool, retryAfter: Option<int>, activeTier: Option<Threshold>, reason: Reason)

  predicate FailOpenReason(r: Reason) {
    r in {MetricsUnavailable, PromptUnparseable, AutoUnanchored}
  }

  // ----- the tiered layer -----

  function ClampUsage(pct: real): real {
    if pct < 0.0 then 0.0 else if pct > 100.0 then 100.0 else pct
  }

  /** Clamping matters only for a tier at zero: a tier within 0 and 100 is crossed at the clamped usage exactly when
      it is at the usage itself, or is at zero. */
  lemma ClampOnlyMattersAtZero(pct: real, kvPct: real)
    requires 0.0 <= kvPct <= 100.0
    ensures kvPct <= ClampUsage(pct) <==> kvPct <= pct || kvPct == 0.0
  {
  }

  /** The tier that governs at `pct` after the tiers have been scanned left to right. */
  function GoverningTier(pct: real, tiers: seq<Threshold>): Option<Threshold> {
    if tiers == [] then None
    else
      var active := GoverningTier(pct, tiers[..|tiers| - 1]);
      var tier := tiers[|tiers| - 1];
      if tier.kvPct <= pct && (active.None? || tier.kvPct > active.value.kvPct) then Some(tier) else active
  }

  /** The scan the program runs. */
  method FindGoverningTier(pct: real, tiers: seq<Threshold>) returns (active: Option<Threshold>)
    ensures active == GoverningTier(pct, tiers)
  {
    active := None;
    for i := 0 to |tiers|
      invariant active == GoverningTier(pct, tiers[..i])
    {
      assert tiers[..i + 1][..i] == tiers[..i];
      if tiers[i].kvPct <= pct {
        if active.None? || tiers[i].kvPct > active.value.kvPct {
          active := Some(tiers[i]);
        }
      }
    }
    assert tiers[..|tiers|] == tiers;
  }

  ghost predicate DistinctTiers(tiers: seq<Threshold>) {
    forall i, j | 0 <= i < j < |tiers| :: tiers[i].kvPct != tiers[j].kvPct
  }

  /** `t` is a crossed tier with the greatest percentage among the crossed ones. */
  ghost predicate GreatestCrossed(pct: real, tiers: seq<Threshold>, t: Threshold) {
    && t in tiers && t.kvPct <= pct
    && forall u <- tiers | u.kvPct <= pct :: u.kvPct <= t.kvPct
  }

  lemma {:induction false} GoverningTierIsGreatest(pct: real, tiers: seq<Threshold>)
    ensures GoverningTier(pct, tiers).None? <==> forall u <- tiers :: u.kvPct > pct
    ensures forall t :: GoverningTier(pct, tiers) == Some(t) ==> GreatestCrossed(pct, tiers, t)
  {
    if tiers == [] {
    } else {
      var init, last := tiers[..|tiers| - 1], tiers[|tiers| - 1];
      GoverningTierIsGreatest(pct, init);
      assert tiers == init + [last];
    }
  }

  function DecideTier(usagePct: Option<real>, ctx: Option<nat>, tiers: seq<Threshold>): Decision {
    if usagePct.None? then Decision(true, None, None, MetricsUnavailable)
    else if ctx.None? then Decision(true, None, None, PromptUnparseable)
    else
      var active := GoverningTier(ClampUsage(usagePct.value), tiers);
      if active.None? then Decision(true, None, None, BelowAllTiers)
      else if ctx.value <= active.value.maxContext then Decision(true, None, active, WithinTier)
      else Decision(false, Some(active.value.timeoutS), active, ExceedsTier)
  }

  /** The tiered decision, by the program's scan. */
  method ScanTiers(usagePct: Option<real>, ctx: Option<nat>, tiers: seq<Threshold>) returns (dec: Decision)
    ensures dec == DecideTier(usagePct, ctx, tiers)
  {
    if usagePct.None? { return Decision(true, None, None, MetricsUnavailable); }
    if ctx.None? { return Decision(true, None, None, PromptUnparseable); }
    var active := FindGoverningTier(ClampUsage(usagePct.value), tiers);
    if active.None? { return Decision(true, None, None, BelowAllTiers); }
    if ctx.value <= active.value.maxContext { return Decision(true, None, active, WithinTier); }
    return Decision(false, Some(active.value.timeoutS), active, ExceedsTier);
  }

  /** With distinct tier percentages the tiered decision does not depend on the order of the tiers. */
  lemma DecideTierOrderFree(usagePct: Option<real>, ctx: Option<nat>, tiers: seq<Threshold>, permuted: seq<Threshold>)
    requires DistinctTiers(tiers) && multiset(tiers) == multiset(permuted)
    ensures DecideTier(usagePct, ctx, tiers) == DecideTier(usagePct, ctx, permuted)
  {
    if usagePct.Some? {
      var pct := ClampUsage(usagePct.value);
      GoverningTierIsGreatest(pct, tiers);
      GoverningTierIsGreatest(pct, permuted);
      forall t ensures t in tiers <==> t in permuted {
        assert t in multiset(tiers) <==> t in multiset(permuted);
      }
      var a, b := GoverningTier(pct, tiers), GoverningTier(pct, permuted);
      if a.Some? {
        assert a.value in permuted && b.Some? && b.value in tiers;
        var i :| 0 <= i < |tiers| && tiers[i] == a.value;
        var j :| 0 <= j < |tiers| && tiers[j] == b.value;
        assert tiers[i].kvPct == tiers[j].kvPct;
      }
    }
  }

  /** The tiered layer rejects exactly when a governing tier exists and the request is over its limit. */
  lemma DecideTierRejects(usagePct: Option<real>, ctx: Option<nat>, tiers: seq<Threshold>)
    ensures var dec := DecideTier(usagePct, ctx, tiers);
            !dec.allow <==>
            usagePct.Some? && ctx.Some? &&
            exists t :: GreatestCrossed(ClampUsage(usagePct.value), tiers, t) && dec.activeTier == Some(t)
                        && ctx.value > t.maxContext && dec.retryAfter == Some(t.timeoutS)
  {
    if usagePct.Some? {
      GoverningTierIsGreatest(ClampUsage(usagePct.value), tiers);
    }
  }

  // ----- the autoconfig layer -----

  /** The token headroom up to the target usage. */
  function AnchorRemainingTokens(capacity: nat, targetFrac: real, usageFrac: real): int {
    (capacity as real * Headroom(targetFrac, usageFrac)).Floor
  }

  function Headroom(targetFrac: real, usageFrac: real): real {
    MaxReal(targetFrac - MinReal(MaxReal(usageFrac, 0.0), 1.0), 0.0)
  }

  /** The tokens fit the part of the pool between the usage and the target: all of the target's share when the usage
      is at or below zero, nothing when it is at or above the target. */
  ghost predicate FitsBelowTarget(tokens: int, capacity: nat, targetFrac: real, usageFrac: real) {
    var gap := if usageFrac <= 0.0 then targetFrac else if usageFrac < targetFrac then targetFrac - usageFrac else 0.0;
    tokens as real <= capacity as real * gap
  }

  /** An anchor is the greatest token count that fits between the usage and the target, and never exceeds the pool. */
  lemma AnchorWithinHeadroom(capacity: nat, targetFrac: real, usageFrac: real)
    requires targetFrac <= 1.0
    ensures var a := AnchorRemainingTokens(capacity, targetFrac, usageFrac);
            && 0 <= a <= capacity
            && (targetFrac >= 0.0 ==> FitsBelowTarget(a, capacity, targetFrac, usageFrac)
                                      && !FitsBelowTarget(a + 1, capacity, targetFrac, usageFrac))
            && (targetFrac <= 0.0 ==> a == 0)
  {
    var h := Headroom(targetFrac, usageFrac);
    FractionOf(capacity, h);
    if targetFrac <= 0.0 {
      assert capacity as real * h == 0.0;
    }
  }

  /** For a usage between zero and the target the anchor is the gap's share of the pool, rounded down. */
  lemma AnchorIsTheGap(capacity: nat, targetFrac: real, usageFrac: real)
    requires 0.0 <= usageFrac <= targetFrac <= 1.0
    ensures var a := AnchorRemainingTokens(capacity, targetFrac, usageFrac) as real;
            a <= capacity as real * (targetFrac - usageFrac) < a + 1.0
  {
    AnchorWithinHeadroom(capacity, targetFrac, usageFrac);
  }

  /** At or above the target usage nothing remains. */
  lemma AnchorAtTarget(capacity: nat, targetFrac: real, usageFrac: real)
    requires 0.0 <= targetFrac <= 1.0 && usageFrac >= targetFrac
    ensures AnchorRemainingTokens(capacity, targetFrac, usageFrac) == 0
  {
    assert capacity as real * Headroom(targetFrac, usageFrac) == 0.0;
  }

  /** What a request costs: its estimated tokens times the margin, rounded up; nothing when unknown. */
  function Charge(ctx: Option<nat>, margin: real): int {
    if ctx.None? then 0 else Ceil(ctx.value as real * margin)
  }

  lemma ChargeCoversRequest(ctx: Option<nat>, margin: real)
    requires margin >= 1.0
    ensures Charge(ctx, margin) >= ctx.GetOr(0)
    ensures ctx.None? ==> Charge(ctx, margin) == 0
    ensures ctx.Some? ==> (Charge(ctx, margin) - 1) as real < ctx.value as real * margin <= Charge(ctx, margin) as real
  {
    if ctx.Some? {
      var x := ctx.value as real * margin;
      ProductMonotone(ctx.value as real, 1.0, margin);
      CeilBounds(x);
    }
  }

  function ScaledRetryAfter(effective: int, remaining: int, minS: int, maxS: int): int {
    if remaining <= 0 then maxS
    else
      var raw := minS as real * (1.0 + effective as real / remaining as real);
      Ceil(MinReal(MaxReal(raw, minS as real), maxS as real))
  }

  /** The scaling term of a rejected request: `minS * effective / remaining`, rounded up. */
  function OverrunSeconds(effective: int, remaining: int, minS: int): int
    requires remaining > 0
  {
    Ceil(minS as real * (effective as real / remaining as real))
  }

  lemma ScaledRetryClosedForm(effective: nat, remaining: int, minS: int, maxS: int)
    requires 0 < remaining && 1 <= minS <= maxS
    ensures ScaledRetryAfter(effective, remaining, minS, maxS) ==
            Min(maxS, minS + OverrunSeconds(effective, remaining, minS))
  {
    var q := effective as real / remaining as real;
    QuotientMonotone(0.0, effective as real, remaining as real);
    ProductMonotone(minS as real, 0.0, q);
    Distributes(minS as real, q);
    ClampedCeiling(minS as real * q, minS, maxS);
  }

  lemma Distributes(a: real, q: real)
    ensures a * (1.0 + q) == a + a * q
  {
  }

  /** Rounding up a sum of whole seconds and an over-run, clamped to a range, is clamping the rounded sum. */
  lemma ClampedCeiling(over: real, minS: int, maxS: int)
    requires over >= 0.0 && minS <= maxS
    ensures Ceil(MinReal(MaxReal(minS as real + over, minS as real), maxS as real)) == Min(maxS, minS + Ceil(over))
  {
    CeilBounds(over);
    var k, x := Min(maxS, minS + Ceil(over)), MinReal(minS as real + over, maxS as real);
    assert (k - 1) as real < x <= k as real;
    CeilLeast(x, k);
    CeilLeast(x, k - 1);
  }

  /** Every scaled wait lies in the configured range; a genuine over-run at least doubles the minimum. */
  lemma ScaledRetryRange(effective: nat, remaining: int, minS: int, maxS: int)
    requires 1 <= minS <= maxS
    ensures minS <= ScaledRetryAfter(effective, remaining, minS, maxS) <= maxS
    ensures remaining < effective ==> ScaledRetryAfter(effective, remaining, minS, maxS) >= Min(2 * minS + 1, maxS)
  {
    if remaining > 0 {
      ScaledRetryClosedForm(effective, remaining, minS, maxS);
      OverrunOfReject(effective, remaining, minS);
    }
  }

  /** The scaling term is never negative, and exceeds the minimum wait when the request does not fit. */
  lemma OverrunOfReject(effective: nat, remaining: int, minS: int)
    requires 0 < remaining && 1 <= minS
    ensures OverrunSeconds(effective, remaining, minS) >= 0
    ensures remaining < effective ==> OverrunSeconds(effective, remaining, minS) > minS
  {
    var q := effective as real / remaining as real;
    QuotientMonotone(0.0, effective as real, remaining as real);
    ProductMonotone(minS as real, 0.0, q);
    CeilBounds(minS as real * q);
    if remaining < effective {
      QuotientAboveOne(effective as real, remaining as real);
      ProductAbove(minS as real, q);
    }
  }

  /** A larger request never waits less. */
  lemma ScaledRetryMonotone(effective: nat, larger: nat, remaining: int, minS: int, maxS: int)
    requires 1 <= minS <= maxS && effective <= larger
    ensures ScaledRetryAfter(effective, remaining, minS, maxS) <= ScaledRetryAfter(larger, remaining, minS, maxS)
  {
    if remaining > 0 {
      ScaledRetryClosedForm(effective, remaining, minS, maxS);
      ScaledRetryClosedForm(larger, remaining, minS, maxS);
      QuotientMonotone(effective as real, larger as real, remaining as real);
      OverrunMonotone(effective as real / remaining as real, larger as real / remaining as real, minS);
    }
  }

  /** More headroom never waits longer, also across the boundary at zero. */
  lemma ScaledRetryAntitone(effective: nat, remaining: int, more: int, minS: int, maxS: int)
    requires 1 <= minS <= maxS && remaining <= more
    ensures ScaledRetryAfter(effective, more, minS, maxS) <= ScaledRetryAfter(effective, remaining, minS, maxS)
  {
    if remaining > 0 {
      ScaledRetryClosedForm(effective, remaining, minS, maxS);
      ScaledRetryClosedForm(effective, more, minS, maxS);
      QuotientAntitone(effective as real, remaining as real, more as real);
      OverrunMonotone(effective as real / more as real, effective as real / remaining as real, minS);
    } else {
      ScaledRetryRange(effective, more, minS, maxS);
    }
  }

  lemma OverrunMonotone(p: real, q: real, minS: int)
    requires p <= q && minS >= 0
    ensures Ceil(minS as real * p) <= Ceil(minS as real * q)
  {
    ProductMonotone(minS as real, p, q);
    CeilBounds(minS as real * q);
    CeilLeast(minS as real * p, Ceil(minS as real * q));
  }

  function DecideAuto(remaining: Option<int>, ctx: Option<nat>, policy: AutoPolicy): Decision {
    if remaining.None? then Decision(true, None, None, AutoUnanchored)
    else if ctx.None? then Decision(true, None, None, PromptUnparseable)
    else
      var effective := Charge(ctx, policy.tokenMargin);
      if effective <= remaining.value then Decision(true, None, None, AutoWithinHeadroom)
      else
        var retry := ScaledRetryAfter(effective, remaining.value, policy.retryMinS, policy.retryMaxS);
        Decision(false, Some(retry), None, AutoExceedsHeadroom)
  }

  /** The autoconfig layer rejects exactly a request of known size whose cost exceeds an anchored counter; the
      wait it asks for is the maximum when nothing remains and otherwise grows with the over-run. */
  lemma DecideAutoRejects(remaining: Option<int>, ctx: Option<nat>, policy: AutoPolicy)
    requires policy.tokenMargin >= 1.0 && 1 <= policy.retryMinS <= policy.retryMaxS
    ensures var dec := DecideAuto(remaining, ctx, policy);
            && (!dec.allow <==> remaining.Some? && ctx.Some? && Charge(ctx, policy.tokenMargin) > remaining.value)
            && (dec.allow ==> dec.retryAfter.None?)
            && (!dec.allow ==>
                  var over := Charge(ctx, policy.tokenMargin);
                  && dec.reason == AutoExceedsHeadroom && dec.retryAfter.Some?
                  && Min(2 * policy.retryMinS + 1, policy.retryMaxS) <= dec.retryAfter.value <= policy.retryMaxS
                  && (remaining.value <= 0 ==> dec.retryAfter.value == policy.retryMaxS)
                  && (remaining.value > 0 ==>
                        var scaled := policy.retryMinS + OverrunSeconds(over, remaining.value, policy.retryMinS);
                        dec.retryAfter.value == Min(policy.retryMaxS, scaled)))
  {
    ChargeCoversRequest(ctx, policy.tokenMargin);
    if remaining.Some? && ctx.Some? && Charge(ctx, policy.tokenMargin) > remaining.value {
      var over := Charge(ctx, policy.tokenMargin);
      ScaledRetryRange(over, remaining.value, policy.retryMinS, policy.retryMaxS);
      if remaining.value > 0 {
        ScaledRetryClosedForm(over, remaining.value, policy.retryMinS, policy.retryMaxS);
      }
    }
  }

  // ----- both layers together -----

  function CombineDecisions(tier: Decision, auto: Decision): Decision {
    if tier.allow && auto.allow then
      var reason :=
        if FailOpenReason(tier.reason) then tier.reason
        else if FailOpenReason(auto.reason) then auto.reason
        else Allowed;
      Decision(true, None, None, reason)
    else if auto.allow then tier
    else if tier.allow then auto
    else if tier.retryAfter.None? || auto.retryAfter.None? then tier
    else
      var retry := Max(tier.retryAfter.value, auto.retryAfter.value);
      if tier.retryAfter.value >= auto.retryAfter.value
      then Decision(false, Some(retry), tier.activeTier, tier.reason)
      else Decision(false, Some(retry), None, auto.reason)
  }

  /** A decision as either layer makes it: a wait iff rejected. */
  predicate WellFormed(d: Decision) {
    d.allow <==> d.retryAfter.None?
  }

  /** Both layers together allow iff each does, and a rejected request waits at least as long as each
      rejecting layer asks; the reported layer is one that rejected and asked for exactly that wait. */
  lemma CombineIsConjunction(tier: Decision, auto: Decision)
    requires WellFormed(tier) && WellFormed(auto)
    ensures var dec := CombineDecisions(tier, auto);
            && WellFormed(dec)
            && (dec.allow <==> tier.allow && auto.allow)
            && (!tier.allow ==> tier.retryAfter.value <= dec.retryAfter.value)
            && (!auto.allow ==> auto.retryAfter.value <= dec.retryAfter.value)
            && (!dec.allow ==> exists d :: d in {tier, auto} && !d.allow
                                           && d.retryAfter == dec.retryAfter && d.reason == dec.reason)
            && (!tier.allow && !auto.allow ==>
                  (dec.reason == tier.reason && dec.activeTier == tier.activeTier)
                      || tier.retryAfter.value < auto.retryAfter.value)
  {
    var dec := CombineDecisions(tier, auto);
    if !dec.allow {
      var d := if auto.allow then tier else if tier.allow then auto
               else if tier.retryAfter.value >= auto.retryAfter.value then tier else auto;
      assert d in {tier, auto} && !d.allow && d.retryAfter == dec.retryAfter && d.reason == dec.reason;
    }
  }
}
