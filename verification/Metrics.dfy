/**
 Reading a `/metrics` body (src/gate/metrics.py). A body is a list of metric families with their
 samples; splitting the text into families is not modelled. The engine is detected from the
 family names, and each engine has its own usage and capacity gauges.
 */
module Metrics {
  import opened Wrappers
  import opened Numbers

  /** `modelName` is the `model_name` label; `sizeTokens` the `kv_cache_size_tokens` label, when it reads as an
      integer. */
  datatype Sample = Sample(value: Float, modelName: Option<string>, sizeTokens: Option<int>)

  datatype Family = Family(name: string, samples: seq<Sample>)

  datatype Body = Unparseable | Families(families: seq<Family>)

  datatype Engine = Vllm | Sglang | Unknown

  const KV_CACHE_USAGE := "vllm:kv_cache_usage_perc"
  const KV_CACHE_CAPACITY := "vllm:kv_cache_size_tokens"
  const KV_CACHE_CONFIG_INFO := "vllm:cache_config_info"
  const SGLANG_KV_USAGE := "sglang:kv_cache_usage_perc"
  const SGLANG_LEGACY_USAGE := "sglang:token_usage"
  const SGLANG_CAPACITY := "sglang:kv_cache_total_tokens"
  const SGLANG_LEGACY_CAPACITY := "sglang:max_total_num_tokens"

  predicate Present(body: Body, name: string) {
    body.Families? && exists f <- body.families :: f.name == name
  }

  function DetectEngine(body: Body): Engine {
    if Present(body, KV_CACHE_USAGE) then Vllm
    else if Present(body, SGLANG_KV_USAGE) || Present(body, SGLANG_LEGACY_USAGE) then Sglang
    else Unknown
  }

  // ----- the samples of one family -----

  /** All samples of the families called `name`, in order. */
  function SeriesOf(families: seq<Family>, name: string): seq<Sample> {
    if families == [] then []
    else
      var last := families[|families| - 1];
      SeriesOf(families[..|families| - 1], name) + (if last.name == name then last.samples else [])
  }

  lemma SeriesStep(families: seq<Family>, i: nat, name: string)
    requires i < |families|
    ensures SeriesOf(families[..i + 1], name) ==
            if families[i].name == name then SeriesOf(families[..i], name) + families[i].samples
                else SeriesOf(families[..i], name)
  {
    assert families[..i + 1][..i] == families[..i];
  }

  function Series(body: Body, name: string): seq<Sample> {
    if body.Unparseable? then [] else SeriesOf(body.families, name)
  }

  function FiniteValues(samples: seq<Sample>): seq<real> {
    if samples == [] then []
    else
      var last := samples[|samples| - 1];
      FiniteValues(samples[..|samples| - 1]) + (if last.value.Finite? then [last.value.x] else [])
  }

  lemma FiniteValuesStep(before: seq<Sample>, samples: seq<Sample>, j: nat)
    requires j < |samples|
    ensures FiniteValues(before + samples[..j + 1]) ==
            FiniteValues(before + samples[..j]) + (if samples[j].value.Finite? then [samples[j].value.x] else [])
  {
    assert (before + samples[..j + 1])[..|before| + j] == before + samples[..j];
  }

  method FiniteSamples(body: Body, name: string) returns (values: seq<real>)
    ensures values == FiniteValues(Series(body, name))
  {
    if body.Unparseable? {
      return [];
    }
    values := [];
    var families := body.families;
    for i := 0 to |families|
      invariant values == FiniteValues(SeriesOf(families[..i], name))
    {
      SeriesStep(families, i, name);
      if families[i].name == name {
        var samples := families[i].samples;
        ghost var before := SeriesOf(families[..i], name);
        assert before + samples[..0] == before;
        for j := 0 to |samples|
          invariant values == FiniteValues(before + samples[..j])
        {
          FiniteValuesStep(before, samples, j);
          if samples[j].value.Finite? {
            values := values + [samples[j].value.x];
          }
        }
        assert samples[..|samples|] == samples;
      }
    }
    assert families[..|families|] == families;
  }

  // ----- the per-model breakdown -----

  function Label(s: Sample): string {
    if s.modelName.None? || s.modelName.value == "" then "default" else s.modelName.value
  }

  function ByModel(samples: seq<Sample>): map<string, real> {
    if samples == [] then map[]
    else
      WithSample(ByModel(samples[..|samples| - 1]), samples[|samples| - 1])
  }

  function WithSample(current: map<string, real>, s: Sample): map<string, real> {
    if s.value.Finite? && (Label(s) !in current || s.value.x > current[Label(s)])
    then current[Label(s) := s.value.x]
    else current
  }

  lemma ByModelStep(before: seq<Sample>, samples: seq<Sample>, j: nat)
    requires j < |samples|
    ensures ByModel(before + samples[..j + 1]) == WithSample(ByModel(before + samples[..j]), samples[j])
  {
    assert (before + samples[..j + 1])[..|before| + j] == before + samples[..j];
  }

  function NonEmpty(m: map<string, real>): Option<map<string, real>> {
    if m == map[] then None else Some(m)
  }

  method ByModelFrom(body: Body, name: string) returns (r: Option<map<string, real>>)
    ensures r == NonEmpty(ByModel(Series(body, name)))
  {
    if body.Unparseable? {
      return None;
    }
    var byModel: map<string, real> := map[];
    var families := body.families;
    for i := 0 to |families|
      invariant byModel == ByModel(SeriesOf(families[..i], name))
    {
      SeriesStep(families, i, name);
      if families[i].name == name {
        var samples := families[i].samples;
        ghost var before := SeriesOf(families[..i], name);
        assert before + samples[..0] == before;
        for j := 0 to |samples|
          invariant byModel == ByModel(before + samples[..j])
        {
          ByModelStep(before, samples, j);
          var s := samples[j];
          if s.value.Finite? {
            var model := Label(s);
            if model !in byModel || s.value.x > byModel[model] {
              byModel := byModel[model := s.value.x];
            }
          }
        }
        assert samples[..|samples|] == samples;
      }
    }
    assert families[..|families|] == families;
    return if byModel == map[] then None else Some(byModel);
  }

  /** `x` is a finite value one of the samples carries for `model`. */
  ghost predicate Reports(samples: seq<Sample>, model: string, x: real) {
    exists s <- samples :: s.value == Finite(x) && Label(s) == model
  }

  /** The breakdown maps exactly the models with a finite sample, each to the greatest of its values. */
  lemma {:induction false} ByModelIsGreatest(samples: seq<Sample>)
    ensures forall model, x :: Reports(samples, model, x) ==> model in ByModel(samples) && x <= ByModel(samples)[model]
    ensures forall model <- ByModel(samples) :: Reports(samples, model, ByModel(samples)[model])
  {
    if samples == [] {
    } else {
      var init, s := samples[..|samples| - 1], samples[|samples| - 1];
      ByModelIsGreatest(init);
      assert samples == init + [s];
      forall model, x
        ensures Reports(samples, model, x) <==> Reports(init, model, x) || (s.value == Finite(x) && Label(s) == model)
      {
      }
    }
  }

  lemma {:induction false} FiniteValuesMembers(samples: seq<Sample>, x: real)
    ensures x in FiniteValues(samples) <==> exists s <- samples :: s.value == Finite(x)
  {
    if samples == [] {
    } else {
      FiniteValuesMembers(samples[..|samples| - 1], x);
      assert samples == samples[..|samples| - 1] + [samples[|samples| - 1]];
    }
  }

  /** `r` is Python's `max(m.values())`. */
  ghost predicate IsGreatestValue(m: map<string, real>, r: real) {
    && (exists k <- m :: m[k] == r)
    && forall k <- m :: m[k] <= r
  }

  /** The breakdown is empty iff no sample is finite; otherwise its maximum is the overall maximum. */
  lemma BreakdownMatchesMaximum(samples: seq<Sample>)
    ensures ByModel(samples) == map[] <==> FiniteValues(samples) == []
    ensures FiniteValues(samples) != [] ==> IsGreatestValue(ByModel(samples), Largest(FiniteValues(samples)))
  {
    var m, xs := ByModel(samples), FiniteValues(samples);
    ByModelIsGreatest(samples);
    forall k <- m ensures m[k] in xs {
      assert Reports(samples, k, m[k]);
      FiniteValuesMembers(samples, m[k]);
    }
    if xs != [] {
      var top := Largest(xs);
      FiniteValuesMembers(samples, top);
      var s :| s in samples && s.value == Finite(top);
      assert Reports(samples, Label(s), top);
      assert m[Label(s)] == top;
    }
  }

  // ----- the engines' gauges -----

  /** SGLang's usage family: the newer gauge when it has a finite sample, else the legacy one. */
  function SelectedSglangUsage(body: Body): string {
    if FiniteValues(Series(body, SGLANG_KV_USAGE)) != [] then SGLANG_KV_USAGE else SGLANG_LEGACY_USAGE
  }

  /** The samples an engine's usage is read from; an unrecognised body has none. */
  function UsageSeries(engine: Engine, body: Body): seq<Sample> {
    match engine
    case Vllm => Series(body, KV_CACHE_USAGE)
    case Sglang => Series(body, SelectedSglangUsage(body))
    case Unknown => []
  }

  function Usage(engine: Engine, body: Body): Option<real> {
    var values := FiniteValues(UsageSeries(engine, body));
    if values == [] then None else Some(Largest(values))
  }

  function UsageByModel(engine: Engine, body: Body): Option<map<string, real>> {
    NonEmpty(ByModel(UsageSeries(engine, body)))
  }

  function Positive(values: seq<real>): (r: seq<real>)
    ensures forall x <- r :: x > 0.0
  {
    if values == [] then []
    else
      var last := values[|values| - 1];
      Positive(values[..|values| - 1]) + (if last > 0.0 then [last] else [])
  }

  /** The greatest positive value of a gauge, truncated to whole tokens: a value below one gives zero. */
  function GaugeCapacity(body: Body, name: string): Option<nat> {
    var values := Positive(FiniteValues(Series(body, name)));
    if values == [] then None else Some(Largest(values).Floor)
  }

  /** The greatest positive `kv_cache_size_tokens` label. */
  function LabelCapacity(samples: seq<Sample>): Option<nat> {
    if samples == [] then None
    else
      WithLabel(LabelCapacity(samples[..|samples| - 1]), samples[|samples| - 1])
  }

  function Capacity(engine: Engine, body: Body): Option<nat> {
    match engine
    case Vllm =>
      var gauge := GaugeCapacity(body, KV_CACHE_CAPACITY);
      if gauge.Some? then gauge else LabelCapacity(Series(body, KV_CACHE_CONFIG_INFO))
    case Sglang =>
      var gauge := GaugeCapacity(body, SGLANG_CAPACITY);
      if gauge.Some? then gauge else GaugeCapacity(body, SGLANG_LEGACY_CAPACITY)
    case Unknown => None
  }

  /** One answered fetch. */
  datatype MetricsSample = MetricsSample(
    observed: bool, usageFrac: Option<real>, byModel: Option<map<string, real>>, capacityTokens: Option<nat>,
        engine: Engine)

  function FetchMetrics(status: int, body: Body): MetricsSample {
    if status != 200 then MetricsSample(false, None, None, None, Unknown)
    else
      var engine := DetectEngine(body);
      MetricsSample(true, Usage(engine, body), UsageByModel(engine, body), Capacity(engine, body), engine)
  }

  /** A sample's breakdown is present iff its usage is, is never empty, and has the usage as its maximum. */
  ghost predicate Coherent(s: MetricsSample) {
    && (s.usageFrac.None? <==> s.byModel.None?)
    && (s.usageFrac.Some? ==> s.byModel.value != map[] && IsGreatestValue(s.byModel.value, s.usageFrac.value))
  }

  /** Whatever a backend answers, for either engine, the parsed sample is coherent. */
  lemma FetchedSampleIsCoherent(status: int, body: Body)
    ensures Coherent(FetchMetrics(status, body))
  {
    BreakdownMatchesMaximum(UsageSeries(DetectEngine(body), body));
  }

  lemma {:induction false} PositiveMembers(values: seq<real>, x: real)
    ensures x in Positive(values) <==> x in values && x > 0.0
  {
    if values == [] {
    } else {
      PositiveMembers(values[..|values| - 1], x);
      assert values == values[..|values| - 1] + [values[|values| - 1]];
    }
  }

  lemma PositiveMeans(xs: seq<real>)
    ensures Positive(xs) != [] <==> exists x <- xs :: x > 0.0
    ensures Positive(xs) != [] ==> xs != [] && Largest(Positive(xs)) == Largest(xs)
  {
    var positive := Positive(xs);
    forall x ensures x in positive <==> x in xs && x > 0.0 {
      PositiveMembers(xs, x);
    }
    if positive != [] {
      var top := Largest(positive);
      assert top in xs && top > 0.0;
      assert Largest(xs) >= top && Largest(xs) in positive;
    }
  }

  /** A gauge gives a capacity exactly when one of its finite samples is positive, namely the
      greatest sample in whole tokens. */
  lemma GaugeCapacityIsGreatest(body: Body, name: string)
    ensures var xs := FiniteValues(Series(body, name));
            && (GaugeCapacity(body, name).Some? <==> exists x <- xs :: x > 0.0)
            && (GaugeCapacity(body, name).Some? ==> GaugeCapacity(body, name).value == Largest(xs).Floor)
  {
    PositiveMeans(FiniteValues(Series(body, name)));
  }

  /** The gauge's greatest sample is positive but less than one token. */
  ghost predicate BelowOne(body: Body, name: string) {
    var xs := FiniteValues(Series(body, name)); xs != [] && 0.0 < Largest(xs) < 1.0
  }

  /** The parsers' documentation promises a positive capacity or none. The code truncates after it has
      filtered, so it reports zero tokens exactly when the gauge it reads peaks below one. */
  lemma CapacityIsZeroIff(engine: Engine, body: Body)
    ensures Capacity(engine, body) == Some(0) <==>
            match engine
            case Vllm => BelowOne(body, KV_CACHE_CAPACITY)
            case Sglang => BelowOne(body, SGLANG_CAPACITY)
                           || ((forall x <- FiniteValues(Series(body, SGLANG_CAPACITY)) :: x <= 0.0)
                               && BelowOne(body, SGLANG_LEGACY_CAPACITY))
            case Unknown => false
  {
    GaugeIsZeroIff(body, KV_CACHE_CAPACITY);
    GaugeIsZeroIff(body, SGLANG_CAPACITY);
    GaugeIsZeroIff(body, SGLANG_LEGACY_CAPACITY);
    GaugeCapacityIsGreatest(body, SGLANG_CAPACITY);
    LabelCapacityIsGreatest(Series(body, KV_CACHE_CONFIG_INFO));
  }

  lemma GaugeIsZeroIff(body: Body, name: string)
    ensures GaugeCapacity(body, name) == Some(0) <==> BelowOne(body, name)
  {
    GaugeCapacityIsGreatest(body, name);
    var xs := FiniteValues(Series(body, name));
    if xs != [] {
      var top := Largest(xs);
      assert top in xs;
      assert top.Floor as real <= top < (top.Floor + 1) as real;
      if 0.0 < top < 1.0 {
        assert top.Floor == 0;
        PositiveMembers(xs, top);
        assert Positive(xs) != [];
      }
    }
  }

  /** A vLLM body as the gate reads it, whose capacity gauge shows half a token. */
  function HalfTokenBody(): Body {
    Families([Family(KV_CACHE_USAGE, [Sample(Finite(0.25), None, None)]),
              Family(KV_CACHE_CAPACITY, [Sample(Finite(0.5), None, None)])])
  }

  lemma TwoFamilies(f: Family, g: Family, name: string)
    requires f.name != name && g.name == name
    ensures SeriesOf([f, g], name) == g.samples
  {
    assert [f, g][..1] == [f] && [f][..0] == [];
    assert SeriesOf([f], name) == [];
  }

  lemma OneReading(s: Sample)
    requires s.value.Finite?
    ensures FiniteValues([s]) == [s.value.x]
  {
    assert [s][..0] == [];
  }

  /** Its capacity gauge peaks at half a token. */
  lemma HalfTokenPeak()
    ensures BelowOne(HalfTokenBody(), KV_CACHE_CAPACITY)
  {
    var usage := Family(KV_CACHE_USAGE, [Sample(Finite(0.25), None, None)]);
    var half := Sample(Finite(0.5), None, None);
    GaugesDiffer();
    TwoFamilies(usage, Family(KV_CACHE_CAPACITY, [half]), KV_CACHE_CAPACITY);
    OneReading(half);
  }

  lemma GaugesDiffer()
    ensures KV_CACHE_USAGE != KV_CACHE_CAPACITY
  {
    assert KV_CACHE_USAGE[14] != KV_CACHE_CAPACITY[14];
  }

  lemma FractionalGaugeGivesZero()
    ensures var sample := FetchMetrics(200, HalfTokenBody());
            sample.observed && sample.engine == Vllm && sample.capacityTokens == Some(0)
  {
    HalfTokenPeak();
    CapacityIsZeroIff(Vllm, HalfTokenBody());
    assert HalfTokenBody().families[0].name == KV_CACHE_USAGE;
  }

  lemma {:induction false} LabelCapacityIsGreatest(samples: seq<Sample>)
    ensures LabelCapacity(samples).Some? <==> exists s <- samples :: s.sizeTokens.Some? && s.sizeTokens.value > 0
    ensures LabelCapacity(samples).Some? ==>
              && (exists s <- samples :: s.sizeTokens == LabelCapacity(samples))
              && LabelCapacity(samples).value > 0
              && forall s <- samples | s.sizeTokens.Some? :: s.sizeTokens.value <= LabelCapacity(samples).value
  {
    if samples == [] {
    } else {
      var init := samples[..|samples| - 1];
      LabelCapacityIsGreatest(init);
      assert samples == init + [samples[|samples| - 1]];
    }
  }

  function WithLabel(best: Option<nat>, s: Sample): Option<nat> {
    if s.sizeTokens.Some? && s.sizeTokens.value > 0 && (best.None? || s.sizeTokens.value > best.value)
    then Some(s.sizeTokens.value)
    else best
  }

  lemma LabelCapacityStep(before: seq<Sample>, samples: seq<Sample>, j: nat)
    requires j < |samples|
    ensures LabelCapacity(before + samples[..j + 1]) == WithLabel(LabelCapacity(before + samples[..j]), samples[j])
  {
    assert (before + samples[..j + 1])[..|before| + j] == before + samples[..j];
  }

  /** The loop over the config-info labels. */
  method CapacityFromConfigInfoLabels(body: Body) returns (r: Option<nat>)
    ensures r == LabelCapacity(Series(body, KV_CACHE_CONFIG_INFO))
  {
    if body.Unparseable? {
      return None;
    }
    r := None;
    var families := body.families;
    for i := 0 to |families|
      invariant r == LabelCapacity(SeriesOf(families[..i], KV_CACHE_CONFIG_INFO))
    {
      SeriesStep(families, i, KV_CACHE_CONFIG_INFO);
      if families[i].name == KV_CACHE_CONFIG_INFO {
        var samples := families[i].samples;
        ghost var before := SeriesOf(families[..i], KV_CACHE_CONFIG_INFO);
        assert before + samples[..0] == before;
        for j := 0 to |samples|
          invariant r == LabelCapacity(before + samples[..j])
        {
          LabelCapacityStep(before, samples, j);
          var size := samples[j].sizeTokens;
          if size.Some? && size.value > 0 {
            if r.None? || size.value > r.value {
              r := Some(size.value);
            }
          }
        }
        assert samples[..|samples|] == samples;
      }
    }
    assert families[..|families|] == families;
  }

  // ----- what a sample says, in terms of the body's families -----

  /** `s` is a sample of a family called `name`. */
  ghost predicate Carries(body: Body, name: string, s: Sample) {
    body.Families? && exists f <- body.families :: f.name == name && s in f.samples
  }

  ghost predicate Reading(body: Body, name: string, x: real) {
    exists s :: Carries(body, name, s) && s.value == Finite(x)
  }

  /** A finite reading labelled with `model`; without a label, or with an empty one, it is for `default`. */
  ghost predicate ReadingFor(body: Body, name: string, model: string, x: real) {
    exists s :: Carries(body, name, s) && s.value == Finite(x) &&
                ((s.modelName == Some(model) && model != "")
                 || (model == "default" && (s.modelName.None? || s.modelName.value == "")))
  }

  ghost predicate PositiveLabel(body: Body, k: int) {
    k > 0 && exists s :: Carries(body, KV_CACHE_CONFIG_INFO, s) && s.sizeTokens == Some(k)
  }

  ghost predicate Peaks(body: Body, name: string, x: real) {
    Reading(body, name, x) && forall y | Reading(body, name, y) :: y <= x
  }

  /** The gauge an engine's usage is read from: for SGLang the newer one when it has a finite reading. */
  ghost function UsageGauge(engine: Engine, body: Body): Option<string> {
    match engine
    case Vllm => Some(KV_CACHE_USAGE)
    case Sglang =>
      Some(if exists x :: Reading(body, SGLANG_KV_USAGE, x) then SGLANG_KV_USAGE else SGLANG_LEGACY_USAGE)
    case Unknown => None
  }

  ghost predicate IsUsage(engine: Engine, body: Body, u: Option<real>) {
    var gauge := UsageGauge(engine, body);
    match u
    case Some(x) => gauge.Some? && Peaks(body, gauge.value, x)
    case None => gauge.None? || forall x :: !Reading(body, gauge.value, x)
  }

  /** Exactly the models with a finite reading, each with the greatest of them. */
  ghost predicate IsBreakdown(engine: Engine, body: Body, m: Option<map<string, real>>) {
    var gauge, n := UsageGauge(engine, body), m.GetOr(map[]);
    && m != Some(map[])
    && (gauge.None? ==> n == map[])
    && (gauge.Some? ==>
          && (forall model <- n :: ReadingFor(body, gauge.value, model, n[model]))
          && forall model, x | ReadingFor(body, gauge.value, model, x) :: model in n && x <= n[model])
  }

  ghost predicate HasPositive(body: Body, name: string) {
    exists x :: Reading(body, name, x) && x > 0.0
  }

  /** The gauge's greatest reading in whole tokens. */
  ghost predicate IsWholePeak(body: Body, name: string, c: Option<nat>) {
    exists x :: Peaks(body, name, x) && c == Some(x.Floor)
  }

  ghost predicate IsGreatestLabel(body: Body, c: Option<nat>) {
    match c
    case Some(k) => PositiveLabel(body, k) && forall j | PositiveLabel(body, j) :: j <= k
    case None => forall k :: !PositiveLabel(body, k)
  }

  /** vLLM: the gauge when it has a positive reading, else the config-info label. SGLang: the newer gauge
      when it has a positive reading, else the legacy one. */
  ghost predicate IsCapacity(engine: Engine, body: Body, c: Option<nat>) {
    match engine
    case Vllm =>
      if HasPositive(body, KV_CACHE_CAPACITY) then IsWholePeak(body, KV_CACHE_CAPACITY, c) else IsGreatestLabel(body, c)
    case Sglang =>
      if HasPositive(body, SGLANG_CAPACITY) then IsWholePeak(body, SGLANG_CAPACITY, c)
      else if HasPositive(body, SGLANG_LEGACY_CAPACITY) then IsWholePeak(body, SGLANG_LEGACY_CAPACITY, c)
      else c.None?
    case Unknown => c.None?
  }

  lemma {:induction false} SeriesOfMembers(families: seq<Family>, name: string, s: Sample)
    ensures s in SeriesOf(families, name) <==> exists f <- families :: f.name == name && s in f.samples
  {
    if families == [] {
    } else {
      var init, last := families[..|families| - 1], families[|families| - 1];
      SeriesOfMembers(init, name, s);
      assert families == init + [last];
    }
  }

  lemma SeriesMembers(body: Body, name: string)
    ensures forall s :: s in Series(body, name) <==> Carries(body, name, s)
  {
    if body.Families? {
      forall s ensures s in Series(body, name) <==> Carries(body, name, s) {
        SeriesOfMembers(body.families, name, s);
      }
    }
  }

  lemma ReadingIff(body: Body, name: string)
    ensures forall x :: x in FiniteValues(Series(body, name)) <==> Reading(body, name, x)
  {
    SeriesMembers(body, name);
    forall x ensures x in FiniteValues(Series(body, name)) <==> Reading(body, name, x) {
      FiniteValuesMembers(Series(body, name), x);
    }
  }

  lemma GaugeMeans(engine: Engine, body: Body)
    ensures UsageGauge(engine, body).None? ==> UsageSeries(engine, body) == []
    ensures UsageGauge(engine, body).Some? ==> UsageSeries(engine, body) == Series(body, UsageGauge(engine, body).value)
  {
    ReadingIff(body, SGLANG_KV_USAGE);
    var xs := FiniteValues(Series(body, SGLANG_KV_USAGE));
    assert xs != [] ==> Reading(body, SGLANG_KV_USAGE, xs[0]);
  }

  /** The usage is the greatest finite reading of the engine's gauge. */
  lemma UsageMeans(engine: Engine, body: Body)
    ensures IsUsage(engine, body, Usage(engine, body))
  {
    GaugeMeans(engine, body);
    var gauge := UsageGauge(engine, body);
    if gauge.Some? {
      ReadingIff(body, gauge.value);
    }
  }

  lemma BreakdownMeans(engine: Engine, body: Body)
    ensures IsBreakdown(engine, body, UsageByModel(engine, body))
  {
    GaugeMeans(engine, body);
    var gauge, samples := UsageGauge(engine, body), UsageSeries(engine, body);
    ByModelIsGreatest(samples);
    if gauge.Some? {
      SeriesMembers(body, gauge.value);
      forall model, x ensures Reports(samples, model, x) <==> ReadingFor(body, gauge.value, model, x) {
      }
    }
  }

  lemma GaugeCapacityMeans(body: Body, name: string)
    ensures HasPositive(body, name) ==> IsWholePeak(body, name, GaugeCapacity(body, name))
    ensures !HasPositive(body, name) ==> GaugeCapacity(body, name).None?
  {
    GaugeCapacityIsGreatest(body, name);
    ReadingIff(body, name);
    var xs := FiniteValues(Series(body, name));
    if x :| Reading(body, name, x) && x > 0.0 {
      assert x in xs;
      assert exists y <- xs :: y > 0.0;
      assert Peaks(body, name, Largest(xs));
    }
  }

  lemma LabelCapacityMeans(body: Body)
    ensures IsGreatestLabel(body, LabelCapacity(Series(body, KV_CACHE_CONFIG_INFO)))
  {
    LabelCapacityIsGreatest(Series(body, KV_CACHE_CONFIG_INFO));
    SeriesMembers(body, KV_CACHE_CONFIG_INFO);
  }

  /** The capacity, fallbacks included, is what the body's samples say. */
  lemma CapacityMeans(engine: Engine, body: Body)
    ensures IsCapacity(engine, body, Capacity(engine, body))
  {
    GaugeCapacityMeans(body, KV_CACHE_CAPACITY);
    GaugeCapacityMeans(body, SGLANG_CAPACITY);
    GaugeCapacityMeans(body, SGLANG_LEGACY_CAPACITY);
    LabelCapacityMeans(body);
  }

  /** A fetch: nothing from an answer other than 200; otherwise the engine by the families present, vLLM first,
      and that engine's usage, breakdown and capacity. */
  lemma FetchMeans(status: int, body: Body)
    ensures status != 200 ==> FetchMetrics(status, body) == MetricsSample(false, None, None, None, Unknown)
    ensures status == 200 ==>
              var s, names := FetchMetrics(status, body), NamesIn(body);
              && s.observed
              && (s.engine == Vllm <==> KV_CACHE_USAGE in names)
              && (s.engine == Unknown <==>
                  KV_CACHE_USAGE !in names && SGLANG_KV_USAGE !in names && SGLANG_LEGACY_USAGE !in names)
              && IsUsage(s.engine, body, s.usageFrac)
              && IsBreakdown(s.engine, body, s.byModel)
              && IsCapacity(s.engine, body, s.capacityTokens)
  {
    var engine := DetectEngine(body);
    UsageMeans(engine, body);
    BreakdownMeans(engine, body);
    CapacityMeans(engine, body);
  }

  /** The names of the families of a body that parses. */
  ghost function NamesIn(body: Body): set<string> {
    if body.Unparseable? then {} else set f | f in body.families :: f.name
  }

  // ----- reading a body with the loops -----

  /** The usage and its breakdown, both of the family the engine's parser selects. */
  method ReadUsage(engine: Engine, body: Body) returns (usage: Option<real>, byModel: Option<map<string, real>>)
    ensures usage == Usage(engine, body) && byModel == UsageByModel(engine, body)
  {
    if engine == Unknown { return None, None; }
    var family := KV_CACHE_USAGE;
    if engine == Sglang {
      var newer := FiniteSamples(body, SGLANG_KV_USAGE);
      family := if newer != [] then SGLANG_KV_USAGE else SGLANG_LEGACY_USAGE;
    }
    var values := FiniteSamples(body, family);
    usage := if values == [] then None else Some(Largest(values));
    byModel := ByModelFrom(body, family);
  }

  method ReadGauge(body: Body, name: string) returns (capacity: Option<nat>)
    ensures capacity == GaugeCapacity(body, name)
  {
    var values := FiniteSamples(body, name);
    var positive := Positive(values);
    if positive == [] { return None; }
    return Some(Largest(positive).Floor);
  }

  method ReadCapacity(engine: Engine, body: Body) returns (capacity: Option<nat>)
    ensures capacity == Capacity(engine, body)
  {
    match engine
    case Vllm =>
      capacity := ReadGauge(body, KV_CACHE_CAPACITY);
      if capacity.None? {
        capacity := CapacityFromConfigInfoLabels(body);
      }
    case Sglang =>
      capacity := ReadGauge(body, SGLANG_CAPACITY);
      if capacity.None? {
        capacity := ReadGauge(body, SGLANG_LEGACY_CAPACITY);
      }
    case Unknown => capacity := None;
  }

  /** One answered fetch, read by the program's loops. */
  method ReadMetrics(status: int, body: Body) returns (sample: MetricsSample)
    ensures sample == FetchMetrics(status, body)
  {
    if status != 200 { return MetricsSample(false, None, None, None, Unknown); }
    var engine := DetectEngine(body);
    var usage, byModel := ReadUsage(engine, body);
    var capacity := ReadCapacity(engine, body);
    return MetricsSample(true, usage, byModel, capacity, engine);
  }
}
