/**
 Which candidate a request tries first (src/gate/routing.py): five policies over a snapshot of
 every candidate's usage, headroom and capacity.
 */
module Routing {
  import opened Wrappers
  import opened Numbers
  import opened Router

  type Name = string
  type Model = string

  ghost predicate Distinct(names: seq<Name>) {
    forall i, j | 0 <= i < j < |names| :: names[i] != names[j]
  }

  datatype Policy = RoundRobin | PrimaryFallback | LargeSmall | Even | Fill

  datatype RoutingSpec = RoutingSpec(policy: Policy, order: seq<Name>, thresholdTokens: Option<int>)

  /** What selection sees of a candidate; `usageFrac` is `None` when the feed is stale or never fetched. */
  datatype CandidateView = CandidateView(
    usageFrac: Option<real>, remainingTokens: Option<int>, capacityTokens: Option<nat>, tokenMargin: real)

  const UNKNOWN_VIEW := CandidateView(None, None, None, 1.0)

  function ViewOf(views: map<Name, CandidateView>, name: Name): CandidateView {
    if name in views then views[name] else UNKNOWN_VIEW
  }

  // ----- large_small -----

  function SelectLargeSmall(candidates: seq<Name>, ctx: Option<nat>, threshold: Option<int>): nat {
    if |candidates| == 1 then 0
    else if ctx.Some? && threshold.Some? && ctx.value >= threshold.value then 0
    else 1
  }

  // ----- even -----

  predicate Projectable(v: CandidateView) {
    v.usageFrac.Some? && v.capacityTokens.Some? && v.capacityTokens.value > 0
  }

  /** The share of its pool the request would add to a candidate. */
  function Increment(ctx: Option<nat>, v: CandidateView): real
    requires Projectable(v)
  {
    Charge(ctx, v.tokenMargin) as real / v.capacityTokens.value as real
  }

  /** The known usages of the first `k` candidates other than candidate `i`. */
  function OtherUsages(candidates: seq<Name>, views: map<Name, CandidateView>, i: nat, k: nat): seq<real>
    requires k <= |candidates|
  {
    if k == 0 then []
    else
      var others := OtherUsages(candidates, views, i, k - 1);
      var v := ViewOf(views, candidates[k - 1]);
      if k - 1 != i && v.usageFrac.Some? then others + [v.usageFrac.value] else others
  }

  /** The usages of the pool if the request went to candidate `i`. */
  function ProjectedUsages(candidates: seq<Name>, ctx: Option<nat>, views: map<Name, CandidateView>, i: nat): seq<real>
    requires i < |candidates| && Projectable(ViewOf(views, candidates[i]))
  {
    var v := ViewOf(views, candidates[i]);
    [v.usageFrac.value + Increment(ctx, v)] + OtherUsages(candidates, views, i, |candidates|)
  }

  function Spread(candidates: seq<Name>, ctx: Option<nat>, views: map<Name, CandidateView>, i: nat): real
    requires i < |candidates| && Projectable(ViewOf(views, candidates[i]))
  {
    var values := ProjectedUsages(candidates, ctx, views, i);
    Largest(values) - Smallest(values)
  }

  /** A candidate's spread, when it is projectable. */
  function ScoreAt(candidates: seq<Name>, ctx: Option<nat>, views: map<Name, CandidateView>, i: nat): Option<real> {
    if i < |candidates| && Projectable(ViewOf(views, candidates[i])) then Some(Spread(candidates, ctx, views, i))
        else None
  }

  function Scores(candidates: seq<Name>, ctx: Option<nat>, views: map<Name, CandidateView>): (r: seq<Option<real>>)
    ensures |r| == |candidates|
    ensures forall i | 0 <= i < |r| :: r[i] == ScoreAt(candidates, ctx, views, i)
  {
    seq(|candidates|, (i: nat) => ScoreAt(candidates, ctx, views, i))
  }

  /** The first of the first `k` indices with the least score, if any of them has one. */
  function ArgMin(scores: seq<Option<real>>, k: nat): (r: Option<nat>)
    requires k <= |scores|
    ensures r.Some? ==> r.value < k && scores[r.value].Some?
  {
    if k == 0 then None
    else
      var best := ArgMin(scores, k - 1);
      if scores[k - 1].Some? && (best.None? || scores[k - 1].value < scores[best.value].value) then Some(k - 1)
          else best
  }

  lemma {:induction false} ArgMinIsLeast(scores: seq<Option<real>>, k: nat)
    requires k <= |scores|
    ensures var best := ArgMin(scores, k);
            forall j | 0 <= j < k && scores[j].Some? ::
              best.Some? && scores[best.value].value <= scores[j].value
                  && (j < best.value ==> scores[best.value].value < scores[j].value)
  {
    if k == 0 {
    } else {
      ArgMinIsLeast(scores, k - 1);
    }
  }

  function SelectEven(candidates: seq<Name>, ctx: Option<nat>, views: map<Name, CandidateView>): (r: nat)
    ensures candidates != [] ==> r < |candidates|
  {
    ArgMin(Scores(candidates, ctx, views), |candidates|).GetOr(0)
  }

  /** The inner loop of `even`: the pool's usages if the request went to candidate `i`. */
  method CollectUsages(
      candidates: seq<Name>, ctx: Option<nat>, views: map<Name, CandidateView>, i: nat) returns (values: seq<real>)
    requires i < |candidates| && Projectable(ViewOf(views, candidates[i]))
    ensures values == ProjectedUsages(candidates, ctx, views, i)
  {
    var view := ViewOf(views, candidates[i]);
    var own := view.usageFrac.value + Increment(ctx, view);
    values := [own];
    for j := 0 to |candidates|
      invariant values == [own] + OtherUsages(candidates, views, i, j)
    {
      if j != i {
        var other := ViewOf(views, candidates[j]);
        if other.usageFrac.Some? {
          values := values + [other.usageFrac.value];
        }
      }
    }
  }

  /** The outer loop of `even`. */
  method ScanEven(candidates: seq<Name>, ctx: Option<nat>, views: map<Name, CandidateView>) returns (r: nat)
    ensures r == SelectEven(candidates, ctx, views)
  {
    var best: Option<nat> := None;
    var bestSpread: real := 0.0;
    ghost var scores := Scores(candidates, ctx, views);
    for i := 0 to |candidates|
      invariant best == ArgMin(scores, i)
      invariant best.Some? ==> scores[best.value] == Some(bestSpread)
    {
      if Projectable(ViewOf(views, candidates[i])) {
        var values := CollectUsages(candidates, ctx, views, i);
        var spread := Largest(values) - Smallest(values);
        assert scores[i] == Some(spread);
        if best.None? || spread < bestSpread {
          best, bestSpread := Some(i), spread;
        }
      }
    }
    r := best.GetOr(0);
  }

  /** `even` picks the first candidate of least spread among the projectable ones; an unprojectable
      one, namely the first candidate, only when none is projectable. */
  lemma EvenMinimisesSpread(candidates: seq<Name>, ctx: Option<nat>, views: map<Name, CandidateView>)
    requires candidates != []
    ensures var r, scores := SelectEven(candidates, ctx, views), Scores(candidates, ctx, views);
            && (scores[r].None? ==> r == 0)
            && forall j | 0 <= j < |candidates| && scores[j].Some? ::
                 scores[r].Some? && scores[r].value <= scores[j].value && (j < r ==> scores[r].value < scores[j].value)
  {
    ArgMinIsLeast(Scores(candidates, ctx, views), |candidates|);
  }

  lemma {:induction false} OtherUsagesMembers(
      candidates: seq<Name>, views: map<Name, CandidateView>, i: nat, k: nat, x: real)
    requires k <= |candidates|
    ensures x in OtherUsages(candidates, views, i, k) <==>
            exists j :: 0 <= j < k && j != i && ViewOf(views, candidates[j]).usageFrac == Some(x)
  {
    if k == 0 {
    } else {
      OtherUsagesMembers(candidates, views, i, k - 1, x);
    }
  }

  function UsageAt(candidates: seq<Name>, views: map<Name, CandidateView>, i: nat): real
    requires i < |candidates|
  {
    ViewOf(views, candidates[i]).usageFrac.GetOr(0.0)
  }

  /** Every candidate is projectable and would gain the same share of its pool. */
  ghost predicate UniformPool(candidates: seq<Name>, ctx: Option<nat>, views: map<Name, CandidateView>, step: real) {
    forall j | 0 <= j < |candidates| ::
      Projectable(ViewOf(views, candidates[j])) && Increment(ctx, ViewOf(views, candidates[j])) == step
  }

  ghost predicate LeastLoaded(candidates: seq<Name>, views: map<Name, CandidateView>, i: nat) {
    && i < |candidates|
    && forall j | 0 <= j < |candidates| :: UsageAt(candidates, views, i) <= UsageAt(candidates, views, j)
  }

  /** Sending the request to the least-loaded candidate never gives a larger spread than sending it to `i`. */
  lemma LeastLoadedSpread(
      candidates: seq<Name>, ctx: Option<nat>, views: map<Name, CandidateView>, least: nat, i: nat, step: real)
    requires i < |candidates| && step >= 0.0
    requires UniformPool(candidates, ctx, views, step) && LeastLoaded(candidates, views, least)
    ensures Spread(candidates, ctx, views, least) <= Spread(candidates, ctx, views, i)
  {
    var n := |candidates|;
    var a, b := ProjectedUsages(candidates, ctx, views, least), ProjectedUsages(candidates, ctx, views, i);
    var low, here := UsageAt(candidates, views, least), UsageAt(candidates, views, i);
    assert a[0] == low + step && b[0] == here + step;
    forall x <- a ensures low <= x && x <= Largest(b) {
      if x != a[0] {
        OtherUsagesMembers(candidates, views, least, n, x);
        assert x in OtherUsages(candidates, views, least, n);
        var j :| 0 <= j < n && j != least && ViewOf(views, candidates[j]).usageFrac == Some(x);
        assert UsageAt(candidates, views, j) == x;
        if j != i {
          OtherUsagesMembers(candidates, views, i, n, x);
          assert x in b;
        }
      }
    }
    if i != least {
      OtherUsagesMembers(candidates, views, i, n, low);
      assert low in OtherUsages(candidates, views, i, n);
      assert low in b;
    }
  }

  /** On a fully known pool where the request adds the same share everywhere, minimising the spread
      reaches exactly the spread of sending the request to any least-loaded candidate. */
  lemma EvenReachesLeastLoadedSpread(
      candidates: seq<Name>, ctx: Option<nat>, views: map<Name, CandidateView>, least: nat, step: real)
    requires step >= 0.0
    requires UniformPool(candidates, ctx, views, step) && LeastLoaded(candidates, views, least)
    ensures Scores(candidates, ctx, views)[SelectEven(candidates, ctx, views)] ==
            Some(Spread(candidates, ctx, views, least))
  {
    LeastLoadedScores(candidates, ctx, views, least, step);
    ArgMinAttains(Scores(candidates, ctx, views), least);
  }

  lemma LeastLoadedScores(
      candidates: seq<Name>, ctx: Option<nat>, views: map<Name, CandidateView>, least: nat, step: real)
    requires step >= 0.0
    requires UniformPool(candidates, ctx, views, step) && LeastLoaded(candidates, views, least)
    ensures var scores := Scores(candidates, ctx, views);
            && scores[least] == Some(Spread(candidates, ctx, views, least))
            && forall j | 0 <= j < |candidates| && scores[j].Some? :: scores[least].value <= scores[j].value
  {
    forall j | 0 <= j < |candidates|
      ensures Spread(candidates, ctx, views, least) <= Spread(candidates, ctx, views, j)
    {
      LeastLoadedSpread(candidates, ctx, views, least, j, step);
    }
  }

  lemma ArgMinAttains(scores: seq<Option<real>>, least: nat)
    requires least < |scores| && scores[least].Some?
    requires forall j | 0 <= j < |scores| && scores[j].Some? :: scores[least].value <= scores[j].value
    ensures scores[ArgMin(scores, |scores|).GetOr(0)] == scores[least]
  {
    ArgMinIsLeast(scores, |scores|);
  }

  // ----- fill -----

  /** Whether `fill` may start at a candidate: unknown feeds are always eligible. */
  predicate FillEligible(ctx: Option<nat>, v: CandidateView) {
    ctx.None? || v.usageFrac.None? || v.remainingTokens.None? || Charge(ctx, v.tokenMargin) <= v.remainingTokens.value
  }

  function SelectFill(candidates: seq<Name>, ctx: Option<nat>, views: map<Name, CandidateView>): Option<nat> {
    FirstFit(candidates, ctx, views, 0)
  }

  function FirstFit(
      candidates: seq<Name>, ctx: Option<nat>, views: map<Name, CandidateView>, from: nat): (r: Option<nat>)
    requires from <= |candidates|
    ensures match r
            case Some(k) => from <= k < |candidates| && FillEligible(ctx, ViewOf(views, candidates[k]))
                            && forall j | from <= j < k :: !FillEligible(ctx, ViewOf(views, candidates[j]))
            case None => forall j | from <= j < |candidates| :: !FillEligible(ctx, ViewOf(views, candidates[j]))
    decreases |candidates| - from
  {
    if from == |candidates| then None
    else if FillEligible(ctx, ViewOf(views, candidates[from])) then Some(from)
    else FirstFit(candidates, ctx, views, from + 1)
  }

  /** The early-exit loop the program runs for `fill`. */
  method ScanFill(candidates: seq<Name>, ctx: Option<nat>, views: map<Name, CandidateView>) returns (r: Option<nat>)
    ensures r == SelectFill(candidates, ctx, views)
  {
    for i := 0 to |candidates|
      invariant FirstFit(candidates, ctx, views, 0) == FirstFit(candidates, ctx, views, i)
    {
      var view := ViewOf(views, candidates[i]);
      if ctx.None? || view.usageFrac.None? || view.remainingTokens.None? {
        return Some(i);
      }
      if Charge(ctx, view.tokenMargin) <= view.remainingTokens.value {
        return Some(i);
      }
    }
    return None;
  }

  // ----- all policies -----

  function SelectBackend(
      spec: RoutingSpec, candidates: seq<Name>, ctx: Option<nat>, views: map<Name, CandidateView>): Option<nat> {
    if candidates == [] then None
    else match spec.policy
      case RoundRobin | PrimaryFallback => Some(0)
      case LargeSmall => Some(SelectLargeSmall(candidates, ctx, spec.thresholdTokens))
      case Even => Some(SelectEven(candidates, ctx, views))
      case Fill => SelectFill(candidates, ctx, views)
  }

  /** Every policy answers with a candidate's index; only `fill` may find no candidate, and then none is eligible. */
  lemma SelectBackendInRange(
      spec: RoutingSpec, candidates: seq<Name>, ctx: Option<nat>, views: map<Name, CandidateView>)
    requires candidates != []
    ensures match SelectBackend(spec, candidates, ctx, views)
            case Some(i) => i < |candidates|
            case None => spec.policy == Fill && forall j | 0 <= j < |candidates| ::
                !FillEligible(ctx, ViewOf(views, candidates[j]))
  {
  }

  // ----- what each policy selects, from the views alone -----

  /** A candidate whose share of the pool after the request can be told: usage known, capacity known and positive. */
  ghost predicate KnownAt(candidates: seq<Name>, views: map<Name, CandidateView>, i: nat) {
    && i < |candidates|
    && var v := ViewOf(views, candidates[i]);
    v.usageFrac.Some? && v.capacityTokens.Some? && v.capacityTokens.value > 0
  }

  /** `x` is one of the pool's usages if the request went to candidate `i`: that candidate's own with the request's
      cost added, or another's known one. */
  ghost predicate InPool(candidates: seq<Name>, ctx: Option<nat>, views: map<Name, CandidateView>, i: nat, x: real)
    requires KnownAt(candidates, views, i)
  {
    var v := ViewOf(views, candidates[i]);
    || x == v.usageFrac.value + Charge(ctx, v.tokenMargin) as real / v.capacityTokens.value as real
    || exists j :: 0 <= j < |candidates| && j != i && ViewOf(views, candidates[j]).usageFrac == Some(x)
  }

  /** The pool's usages would lie `d` apart. */
  ghost predicate Apart(candidates: seq<Name>, ctx: Option<nat>, views: map<Name, CandidateView>, i: nat, d: real)
    requires KnownAt(candidates, views, i)
  {
    exists lo, hi ::
      && InPool(candidates, ctx, views, i, lo) && InPool(candidates, ctx, views, i, hi) && hi - lo == d
      && forall x :: InPool(candidates, ctx, views, i, x) ==> lo <= x <= hi
  }

  lemma InPoolIsProjected(candidates: seq<Name>, ctx: Option<nat>, views: map<Name, CandidateView>, i: nat, x: real)
    requires KnownAt(candidates, views, i)
    ensures InPool(candidates, ctx, views, i, x) <==> x in ProjectedUsages(candidates, ctx, views, i)
  {
    OtherUsagesMembers(candidates, views, i, |candidates|, x);
  }

  lemma SpreadIsApart(candidates: seq<Name>, ctx: Option<nat>, views: map<Name, CandidateView>, i: nat, d: real)
    requires KnownAt(candidates, views, i)
    ensures Apart(candidates, ctx, views, i, d) <==> Spread(candidates, ctx, views, i) == d
  {
    var values := ProjectedUsages(candidates, ctx, views, i);
    forall x ensures InPool(candidates, ctx, views, i, x) <==> x in values {
      InPoolIsProjected(candidates, ctx, views, i, x);
    }
    var lo, hi := Smallest(values), Largest(values);
    assert InPool(candidates, ctx, views, i, lo) && InPool(candidates, ctx, views, i, hi);
  }

  /** `even` starts from the first candidate that would leave the pool's usages closest together, among those whose
      share can be told, and from the first candidate when there is none. */
  lemma EvenSelects(spec: RoutingSpec, candidates: seq<Name>, ctx: Option<nat>, views: map<Name, CandidateView>)
    requires spec.policy == Even && candidates != []
    ensures SelectBackend(spec, candidates, ctx, views).Some?
    ensures var i := SelectBackend(spec, candidates, ctx, views).value;
            && (!KnownAt(candidates, views, i) ==> i == 0)
            && forall j: nat | KnownAt(candidates, views, j) ::
                 && KnownAt(candidates, views, i)
                 && forall d, e | Apart(candidates, ctx, views, i, d) && Apart(candidates, ctx, views, j, e) ::
                      d <= e && (j < i ==> d < e)
  {
    var i := SelectEven(candidates, ctx, views);
    EvenMinimisesSpread(candidates, ctx, views);
    forall j: nat | KnownAt(candidates, views, j)
      ensures KnownAt(candidates, views, i)
      ensures forall d, e | Apart(candidates, ctx, views, i, d) && Apart(candidates, ctx, views, j, e) ::
                d <= e && (j < i ==> d < e)
    {
      assert Scores(candidates, ctx, views)[j] == Some(Spread(candidates, ctx, views, j));
      forall d, e | Apart(candidates, ctx, views, i, d) && Apart(candidates, ctx, views, j, e)
        ensures d <= e && (j < i ==> d < e)
      {
        SpreadIsApart(candidates, ctx, views, i, d);
        SpreadIsApart(candidates, ctx, views, j, e);
      }
    }
  }

  /** `fill` starts from candidate `k` exactly when that is the first whose size, usage or counter is unknown or whose
      counter covers the request's cost. */
  lemma FillSelects(spec: RoutingSpec, candidates: seq<Name>, ctx: Option<nat>, views: map<Name, CandidateView>, k: nat)
    requires spec.policy == Fill && k < |candidates|
    ensures SelectBackend(spec, candidates, ctx, views) == Some(k) <==>
            Fits(candidates, ctx, views, k) && forall j | 0 <= j < k :: !Fits(candidates, ctx, views, j)
  {
    var r := SelectFill(candidates, ctx, views);
    forall j | 0 <= j < |candidates|
      ensures Fits(candidates, ctx, views, j) <==> FillEligible(ctx, ViewOf(views, candidates[j]))
    {
    }
  }

  ghost predicate Fits(candidates: seq<Name>, ctx: Option<nat>, views: map<Name, CandidateView>, k: nat)
    requires k < |candidates|
  {
    var v := ViewOf(views, candidates[k]);
    ctx.Some? && v.usageFrac.Some? && v.remainingTokens.Some? ==> Charge(ctx, v.tokenMargin) <= v.remainingTokens.value
  }

  /** `large_small` starts from the first of several candidates exactly for a request of known size at or above the
      threshold and otherwise from the second; `round_robin` and `primary_fallback` start from the first. */
  lemma OthersSelect(spec: RoutingSpec, candidates: seq<Name>, ctx: Option<nat>, views: map<Name, CandidateView>)
    requires candidates != []
    ensures spec.policy == LargeSmall && |candidates| == 1 ==> SelectBackend(spec, candidates, ctx, views) == Some(0)
    ensures spec.policy == LargeSmall && |candidates| > 1 ==>
              && (SelectBackend(spec, candidates, ctx, views) == Some(0) <==>
                    ctx.Some? && spec.thresholdTokens.Some? && ctx.value >= spec.thresholdTokens.value)
              && SelectBackend(spec, candidates, ctx, views) in {Some(0), Some(1)}
    ensures spec.policy in {RoundRobin, PrimaryFallback} ==> SelectBackend(spec, candidates, ctx, views) == Some(0)
  {
  }

  /** So a larger request never starts later than a smaller one, and neither than one of unknown size. */
  lemma LargerStartsEarlier(
      spec: RoutingSpec, candidates: seq<Name>, small: Option<nat>, large: nat, views: map<Name, CandidateView>)
    requires spec.policy == LargeSmall && candidates != [] && (small.Some? ==> small.value <= large)
    ensures SelectBackend(spec, candidates, Some(large), views).value <=
            SelectBackend(spec, candidates, small, views).value
  {
  }
}
