/**
 Validation of parsed configuration values (src/gate/config.py), and the setup an accepted configuration
 resolves to (`_build_backend_states`, src/gate/app.py).
 */
module Config {
  import opened Wrappers
  import opened Numbers
  import opened Router
  import opened Routing
  import opened Backends
  import opened Gate

  datatype Tier = Tier(kvPct: Float, maxContext: int, timeoutS: int)

  datatype BackendEntry = BackendEntry(
    name: Name, port: int, models: seq<Model>, isDefault: bool, thresholds: Option<seq<Tier>>,
    targetPct: Option<Float>, tokenMargin: Option<Float>, retryMinS: Option<int>, retryMaxS: Option<int>)

  datatype RoutingEntry = RoutingEntry(model: Model, spec: RoutingSpec)

  datatype Configuration = Configuration(
    listenPort: int, charsPerToken: int, defaultMaxTokens: int,
    pollIntervalS: Float, staleAfterS: Float, refreshIntervalS: Float,
    thresholds: seq<Tier>, targetPct: Float, tokenMargin: Float, retryMinS: int, retryMaxS: int,
    backends: seq<BackendEntry>, routing: seq<RoutingEntry>)

  // ----- what a valid configuration is -----

  predicate TierOk(t: Tier) {
    t.kvPct.Finite? && 0.0 <= t.kvPct.x <= 100.0 && t.maxContext >= 1 && t.timeoutS >= 1
  }

  ghost predicate TiersOk(tiers: seq<Tier>) {
    && (forall t <- tiers :: TierOk(t))
    && forall i, j | 0 <= i < j < |tiers| :: tiers[i].kvPct != tiers[j].kvPct
  }

  ghost predicate GlobalsOk(c: Configuration) {
    && TiersOk(c.thresholds)
    && 1 <= c.listenPort <= 65535 && c.charsPerToken >= 1 && c.defaultMaxTokens >= 0
    && c.pollIntervalS.Finite? && c.pollIntervalS.x > 0.0
    && c.staleAfterS.Finite? && c.staleAfterS.x > 0.0
    && c.refreshIntervalS.Finite? && c.refreshIntervalS.x > 0.0
    && c.targetPct.Finite? && 0.0 < c.targetPct.x <= 100.0
    && c.tokenMargin.Finite? && c.tokenMargin.x >= 1.0
    && 1 <= c.retryMinS <= c.retryMaxS
  }

  /** A backend's own knobs, and its effective retry range, are within the global ranges. */
  ghost predicate EntryOk(c: Configuration, b: BackendEntry) {
    && b.name != "" && 1 <= b.port <= 65535
    && (b.thresholds.Some? ==> TiersOk(b.thresholds.value))
    && (b.targetPct.Some? ==> b.targetPct.value.Finite? && 0.0 < b.targetPct.value.x <= 100.0)
    && (b.tokenMargin.Some? ==> b.tokenMargin.value.Finite? && b.tokenMargin.value.x >= 1.0)
    && (b.retryMinS.Some? ==> b.retryMinS.value >= 1)
    && b.retryMinS.GetOr(c.retryMinS) <= b.retryMaxS.GetOr(c.retryMaxS)
  }

  ghost predicate BackendsOk(c: Configuration) {
    && c.backends != []
    && (forall b <- c.backends :: EntryOk(c, b))
    && (forall i, j | 0 <= i < j < |c.backends| :: c.backends[i].name != c.backends[j].name)
    && (forall i, j | 0 <= i < j < |c.backends| :: !(c.backends[i].isDefault && c.backends[j].isDefault))
  }

  ghost predicate OrdersKnown(c: Configuration) {
    forall e <- c.routing, n <- e.spec.order :: exists b <- c.backends :: b.name == n
  }

  ghost predicate Valid(c: Configuration) {
    GlobalsOk(c) && BackendsOk(c) && OrdersKnown(c)
  }

  /** A parsed routing entry: distinct non-empty names, and a threshold exactly under `large_small`. */
  ghost predicate EntryParses(e: RoutingEntry) {
    && e.model != "" && e.spec.order != [] && "" !in e.spec.order && Distinct(e.spec.order)
    && (e.spec.thresholdTokens.Some? ==> e.spec.thresholdTokens.value >= 1)
    && (e.spec.policy == LargeSmall <==> e.spec.thresholdTokens.Some?)
  }

  // ----- the validators -----

  predicate Percentage(x: Float) {
    x.Finite? && 0.0 <= x.x <= 100.0
  }

  predicate Positive(x: Float) {
    x.Finite? && x.x > 0.0
  }

  predicate Target(x: Float) {
    Positive(x) && x.x <= 100.0
  }

  predicate Margin(x: Float) {
    x.Finite? && x.x >= 1.0
  }

  predicate Port(p: int) {
    1 <= p <= 65535
  }

  datatype TierFault = KvPctRange | MaxContextRange | TimeoutRange | DuplicateKvPct

  datatype BackendFault =
    | EmptyName | DuplicateName | PortRange | TierFaultAt(tier: nat, fault: TierFault)
    | TargetRange | MarginRange | RetryMinRange | RetryMaxRange

  datatype Knob =
    | ListenPort | CharsPerToken | DefaultMaxTokens | PollInterval | StaleAfter | RefreshInterval
    | TargetPct | RetryMin | RetryMax | TokenMargin

  datatype ConfigError =
    | TierError(index: nat, tierFault: TierFault) | GlobalRange(knob: Knob) | NoBackend
    | BackendError(entry: nat, backendFault: BackendFault)
    | ManyDefaults | UnknownBackend(model: Model, backend: Name)

  /** Tier `i` is the first bad one and has this fault. */
  ghost predicate Faulty(tiers: seq<Tier>, i: nat, fault: TierFault) {
    i < |tiers| && TiersOk(tiers[..i]) &&
    match fault
    case KvPctRange => !Percentage(tiers[i].kvPct)
    case MaxContextRange => tiers[i].maxContext < 1
    case TimeoutRange => tiers[i].timeoutS < 1
    case DuplicateKvPct => exists t <- tiers[..i] :: t.kvPct == tiers[i].kvPct
  }

  /** The scan of a tier list: it passes exactly the valid ones and otherwise blames the first bad tier. */
  method ValidateTiers(tiers: seq<Tier>) returns (r: Outcome<(nat, TierFault)>)
    ensures r.Pass? <==> TiersOk(tiers)
    ensures r.Fail? ==> Faulty(tiers, r.error.0, r.error.1)
  {
    var seen: set<Float> := {};
    for i := 0 to |tiers|
      invariant TiersOk(tiers[..i])
      invariant seen == set t | t in tiers[..i] :: t.kvPct
    {
      var t := tiers[i];
      assert t in tiers;
      if !Percentage(t.kvPct) { return Fail((i, KvPctRange)); }
      if t.maxContext < 1 { return Fail((i, MaxContextRange)); }
      if t.timeoutS < 1 { return Fail((i, TimeoutRange)); }
      if t.kvPct in seen {
        assert exists u <- tiers[..i] :: u.kvPct == t.kvPct;
        return Fail((i, DuplicateKvPct));
      }
      seen := seen + {t.kvPct};
      assert tiers[..i + 1] == tiers[..i] + [t];
    }
    assert tiers[..|tiers|] == tiers;
    return Pass;
  }

  /** A global knob is in its range. */
  predicate KnobOk(c: Configuration, knob: Knob) {
    match knob
    case ListenPort => Port(c.listenPort)
    case CharsPerToken => c.charsPerToken >= 1
    case DefaultMaxTokens => c.defaultMaxTokens >= 0
    case PollInterval => Positive(c.pollIntervalS)
    case StaleAfter => Positive(c.staleAfterS)
    case RefreshInterval => Positive(c.refreshIntervalS)
    case TargetPct => Target(c.targetPct)
    case RetryMin => c.retryMinS >= 1
    case RetryMax => c.retryMaxS >= c.retryMinS
    case TokenMargin => Margin(c.tokenMargin)
  }

  /** The scalar checks pass exactly when every knob is in range, and otherwise name one that is not. */
  method ValidateGlobals(c: Configuration) returns (r: Outcome<ConfigError>)
    ensures r.Pass? <==> GlobalsOk(c)
    ensures r.Pass? ==> forall k :: KnobOk(c, k)
    ensures r.Fail? ==> match r.error
                        case TierError(i, fault) => Faulty(c.thresholds, i, fault)
                        case GlobalRange(knob) => !KnobOk(c, knob)
                        case _ => false
  {
    var tiers := ValidateTiers(c.thresholds);
    if tiers.Fail? { return Fail(TierError(tiers.error.0, tiers.error.1)); }
    if !Port(c.listenPort) { return Fail(GlobalRange(ListenPort)); }
    if c.charsPerToken < 1 { return Fail(GlobalRange(CharsPerToken)); }
    if c.defaultMaxTokens < 0 { return Fail(GlobalRange(DefaultMaxTokens)); }
    if !Positive(c.pollIntervalS) { return Fail(GlobalRange(PollInterval)); }
    if !Positive(c.staleAfterS) { return Fail(GlobalRange(StaleAfter)); }
    if !Positive(c.refreshIntervalS) { return Fail(GlobalRange(RefreshInterval)); }
    if !Target(c.targetPct) { return Fail(GlobalRange(TargetPct)); }
    if c.retryMinS < 1 { return Fail(GlobalRange(RetryMin)); }
    if c.retryMaxS < c.retryMinS { return Fail(GlobalRange(RetryMax)); }
    if !Margin(c.tokenMargin) { return Fail(GlobalRange(TokenMargin)); }
    return Pass;
  }

  /** The entry's own knob that a fault names is out of range. */
  ghost predicate Blames(c: Configuration, b: BackendEntry, fault: BackendFault) {
    match fault
    case EmptyName => b.name == ""
    case DuplicateName => exists i, j :: 0 <= i < j < |c.backends| && c.backends[i].name == b.name && c.backends[j] == b
    case PortRange => !Port(b.port)
    case TierFaultAt(i, tierFault) => b.thresholds.Some? && Faulty(b.thresholds.value, i, tierFault)
    case TargetRange => b.targetPct.Some? && !Target(b.targetPct.value)
    case MarginRange => b.tokenMargin.Some? && !Margin(b.tokenMargin.value)
    case RetryMinRange => b.retryMinS.Some? && b.retryMinS.value < 1
    case RetryMaxRange => b.retryMaxS.GetOr(c.retryMaxS) < b.retryMinS.GetOr(c.retryMinS)
  }

  /** A backend entry's own checks; names are compared by the caller's loop. */
  method ValidateEntry(c: Configuration, b: BackendEntry) returns (r: Outcome<BackendFault>)
    requires b.name != ""
    ensures r.Pass? <==> EntryOk(c, b)
    ensures r.Fail? ==> Blames(c, b, r.error)
  {
    if !Port(b.port) { return Fail(PortRange); }
    if b.thresholds.Some? {
      var tiers := ValidateTiers(b.thresholds.value);
      if tiers.Fail? { return Fail(TierFaultAt(tiers.error.0, tiers.error.1)); }
    }
    if b.targetPct.Some? && !Target(b.targetPct.value) { return Fail(TargetRange); }
    if b.tokenMargin.Some? && !Margin(b.tokenMargin.value) { return Fail(MarginRange); }
    if b.retryMinS.Some? && b.retryMinS.value < 1 { return Fail(RetryMinRange); }
    var effectiveMin, effectiveMax := b.retryMinS.GetOr(c.retryMinS), b.retryMaxS.GetOr(c.retryMaxS);
    if effectiveMax < effectiveMin { return Fail(RetryMaxRange); }
    return Pass;
  }

  function DefaultCount(backends: seq<BackendEntry>): nat {
    if backends == [] then 0
    else DefaultCount(backends[..|backends| - 1]) + (if backends[|backends| - 1].isDefault then 1 else 0)
  }

  lemma {:induction false} DefaultCountMeans(backends: seq<BackendEntry>)
    ensures DefaultCount(backends) == 0 <==> forall b <- backends :: !b.isDefault
    ensures DefaultCount(backends) <= 1 <==>
            forall i, j | 0 <= i < j < |backends| :: !(backends[i].isDefault && backends[j].isDefault)
  {
    if backends == [] {
    } else {
      var n := |backends| - 1;
      var init, last := backends[..n], backends[n];
      DefaultCountMeans(init);
      assert backends == init + [last];
      if last.isDefault && DefaultCount(init) > 0 {
        var b :| b in init && b.isDefault;
        var i :| 0 <= i < n && init[i] == b;
        assert backends[i].isDefault && backends[n].isDefault;
      }
      if DefaultCount(init) > 1 {
        var i, j :| 0 <= i < j < n && init[i].isDefault && init[j].isDefault;
        assert backends[i].isDefault && backends[j].isDefault;
      }
    }
  }

  ghost predicate EntriesOk(c: Configuration, k: nat)
    requires k <= |c.backends|
  {
    && (forall i | 0 <= i < k :: EntryOk(c, c.backends[i]))
    && forall i, j | 0 <= i < j < k :: c.backends[i].name != c.backends[j].name
  }

  /** With every entry in range and no name twice, only the number of flagged defaults is left to check. */
  lemma EntriesDecide(c: Configuration)
    requires c.backends != [] && EntriesOk(c, |c.backends|)
    ensures BackendsOk(c) <==> DefaultCount(c.backends) <= 1
  {
    DefaultCountMeans(c.backends);
  }

  lemma DefaultCountStep(backends: seq<BackendEntry>, i: nat)
    requires i < |backends|
    ensures DefaultCount(backends[..i + 1]) == DefaultCount(backends[..i]) + if backends[i].isDefault then 1 else 0
  {
    assert backends[..i + 1][..i] == backends[..i];
  }

  method ValidateBackends(c: Configuration) returns (r: Outcome<ConfigError>)
    ensures r.Pass? <==> BackendsOk(c)
    ensures r.Fail? && r.error.BackendError? ==>
              r.error.entry < |c.backends| && Blames(c, c.backends[r.error.entry], r.error.backendFault)
  {
    if c.backends == [] { return Fail(NoBackend); }
    var seenNames: set<Name>, defaults := {}, 0;
    for i := 0 to |c.backends|
      invariant EntriesOk(c, i)
      invariant forall n :: n in seenNames <==> exists j :: 0 <= j < i && c.backends[j].name == n
      invariant defaults == DefaultCount(c.backends[..i])
    {
      var b := c.backends[i];
      assert b in c.backends;
      if b.name == "" { return Fail(BackendError(i, EmptyName)); }
      if b.name in seenNames { return Fail(BackendError(i, DuplicateName)); }
      seenNames := seenNames + {b.name};
      var own := ValidateEntry(c, b);
      if own.Fail? { return Fail(BackendError(i, own.error)); }
      DefaultCountStep(c.backends, i);
      if b.isDefault {
        defaults := defaults + 1;
      }
    }
    assert c.backends[..|c.backends|] == c.backends;
    EntriesDecide(c);
    if defaults > 1 { return Fail(ManyDefaults); }
    return Pass;
  }

  method ValidateRouting(c: Configuration) returns (r: Outcome<ConfigError>)
    ensures r.Pass? <==> OrdersKnown(c)
    ensures r.Fail? ==> r.error.UnknownBackend? && forall b <- c.backends :: b.name != r.error.backend
  {
    var names := set b | b in c.backends :: b.name;
    for i := 0 to |c.routing|
      invariant forall k | 0 <= k < i :: forall n <- c.routing[k].spec.order :: n in names
    {
      var e := c.routing[i];
      assert e in c.routing;
      for j := 0 to |e.spec.order|
        invariant forall k | 0 <= k < j :: e.spec.order[k] in names
      {
        if e.spec.order[j] !in names {
          assert e.spec.order[j] in e.spec.order;
          return Fail(UnknownBackend(e.model, e.spec.order[j]));
        }
      }
    }
    return Pass;
  }

  /** The whole validation accepts exactly the valid configurations. */
  method Validate(c: Configuration) returns (r: Outcome<ConfigError>)
    ensures r.Pass? <==> Valid(c)
  {
    r := ValidateGlobals(c);
    if r.Fail? { return; }
    r := ValidateBackends(c);
    if r.Fail? { return; }
    r := ValidateRouting(c);
  }

  /** The order list of a routing entry, with the set of names seen so far. */
  method ParseOrder(order: seq<Name>) returns (ok: bool)
    ensures ok <==> order != [] && "" !in order && Distinct(order)
  {
    if order == [] { return false; }
    var seen: set<Name> := {};
    for i := 0 to |order|
      invariant seen == set n | n in order[..i]
      invariant "" !in order[..i] && Distinct(order[..i])
    {
      if order[i] == "" { return false; }
      if order[i] in seen {
        return false;
      }
      seen := seen + {order[i]};
      assert order[..i + 1] == order[..i] + [order[i]];
    }
    assert order[..|order|] == order;
    return true;
  }

  method ParseRouting(entries: seq<RoutingEntry>) returns (ok: bool)
    ensures ok <==> forall e <- entries :: EntryParses(e)
  {
    for i := 0 to |entries|
      invariant forall k | 0 <= k < i :: EntryParses(entries[k])
    {
      var e := entries[i];
      assert e in entries;
      if e.model == "" { return false; }
      var parses := ParseOrder(e.spec.order);
      if !parses { return false; }
      if e.spec.thresholdTokens.Some? && e.spec.thresholdTokens.value < 1 { return false; }
      if (e.spec.policy == LargeSmall) != e.spec.thresholdTokens.Some? { return false; }
    }
    return true;
  }

  // ----- the setup an accepted configuration resolves to -----

  function ValueOf(x: Float): real {
    if x.Finite? then x.x else 0.0
  }

  function ThresholdsOf(tiers: seq<Tier>): seq<Threshold> {
    seq(|tiers|, i requires 0 <= i < |tiers| =>
          Threshold(ValueOf(tiers[i].kvPct), tiers[i].maxContext, tiers[i].timeoutS))
  }

  /** A backend's knobs, falling back to the global ones. */
  function SettingsOf(c: Configuration, b: BackendEntry): Settings {
    Settings(ThresholdsOf(b.thresholds.GetOr(c.thresholds)),
             ValueOf(b.targetPct.GetOr(c.targetPct)) / 100.0,
             AutoPolicy(ValueOf(b.tokenMargin.GetOr(c.tokenMargin)), b.retryMinS.GetOr(c.retryMinS),
                 b.retryMaxS.GetOr(c.retryMaxS)))
  }

  function NamesOf(backends: seq<BackendEntry>): (names: seq<Name>)
    ensures |names| == |backends| && forall i | 0 <= i < |names| :: names[i] == backends[i].name
  {
    seq(|backends|, i requires 0 <= i < |backends| => backends[i].name)
  }

  /** The flagged backend, else the first one. */
  function DefaultName(backends: seq<BackendEntry>): Name
    requires backends != []
  {
    FirstFlagged(backends).GetOr(backends[0].name)
  }

  function FirstFlagged(backends: seq<BackendEntry>): Option<Name> {
    if backends == [] then None
    else if backends[0].isDefault then Some(backends[0].name) else FirstFlagged(backends[1..])
  }

  function EntryNamed(backends: seq<BackendEntry>, name: Name): Option<BackendEntry> {
    if backends == [] then None
    else if backends[0].name == name then Some(backends[0]) else EntryNamed(backends[1..], name)
  }

  /** One spec per model; a later entry would win. */
  function SpecsOf(entries: seq<RoutingEntry>): map<Model, RoutingSpec> {
    if entries == [] then map[]
    else
      var last := entries[|entries| - 1];
      SpecsOf(entries[..|entries| - 1])[last.model := last.spec]
  }

  ghost function SetupOf(c: Configuration): Setup
    requires BackendsOk(c)
  {
    EntriesAreNamed(c.backends);
    var names := NamesOf(c.backends);
    Setup(names, DefaultName(c.backends), ValueOf(c.staleAfterS), ValueOf(c.refreshIntervalS),
          map n | n in names :: SettingsOf(c, EntryNamed(c.backends, n).value),
          map n | n in names :: EntryNamed(c.backends, n).value.models,
          SpecsOf(c.routing), StartIndex)
  }

  lemma {:induction false} NamedEntry(backends: seq<BackendEntry>, n: Name)
    requires exists b <- backends :: b.name == n
    ensures EntryNamed(backends, n).Some? && EntryNamed(backends, n).value in backends
            && EntryNamed(backends, n).value.name == n
  {
    assert backends == [backends[0]] + backends[1..];
    if backends[0].name != n {
      NamedEntry(backends[1..], n);
    }
  }

  lemma EntriesAreNamed(backends: seq<BackendEntry>)
    ensures forall n <- NamesOf(backends) ::
              var e := EntryNamed(backends, n); e.Some? && e.value in backends && e.value.name == n
  {
    forall n <- NamesOf(backends)
      ensures EntryNamed(backends, n).Some? && EntryNamed(backends, n).value in backends
              && EntryNamed(backends, n).value.name == n
    {
      NamedEntry(backends, n);
    }
  }

  lemma SettingsResolve(c: Configuration, b: BackendEntry)
    requires GlobalsOk(c) && EntryOk(c, b)
    ensures ValidSettings(SettingsOf(c, b))
  {
    var tiers := b.thresholds.GetOr(c.thresholds);
    forall t <- ThresholdsOf(tiers) ensures 0.0 <= t.kvPct <= 100.0 && t.maxContext >= 1 && t.timeoutS >= 1 {
      var i :| 0 <= i < |tiers| && t == ThresholdsOf(tiers)[i];
      assert TierOk(tiers[i]);
    }
    forall i, j | 0 <= i < j < |tiers| ensures ThresholdsOf(tiers)[i].kvPct != ThresholdsOf(tiers)[j].kvPct {
      assert TierOk(tiers[i]) && TierOk(tiers[j]);
    }
  }

  /** Every knob of a backend is its own value where it has one and the global value where it has none; the
      target percentage becomes a fraction. */
  lemma SettingsFallBack(c: Configuration, b: BackendEntry)
    requires GlobalsOk(c) && EntryOk(c, b)
    ensures var x := SettingsOf(c, b);
            && x.targetFrac * 100.0 == (if b.targetPct.Some? then b.targetPct.value.x else c.targetPct.x)
            && x.auto.tokenMargin == (if b.tokenMargin.Some? then b.tokenMargin.value.x else c.tokenMargin.x)
            && x.auto.retryMinS == (if b.retryMinS.Some? then b.retryMinS.value else c.retryMinS)
            && x.auto.retryMaxS == (if b.retryMaxS.Some? then b.retryMaxS.value else c.retryMaxS)
    ensures b.thresholds.Some? ==> SameTiers(SettingsOf(c, b).thresholds, b.thresholds.value)
    ensures b.thresholds.None? ==> SameTiers(SettingsOf(c, b).thresholds, c.thresholds)
  {
    var tiers := b.thresholds.GetOr(c.thresholds);
    forall i | 0 <= i < |tiers| ensures tiers[i].kvPct.Finite? {
      assert TierOk(tiers[i]);
    }
  }

  ghost predicate SameTiers(xs: seq<Threshold>, tiers: seq<Tier>) {
    && |xs| == |tiers|
    && forall i | 0 <= i < |xs| ::
        Finite(xs[i].kvPct) == tiers[i].kvPct && xs[i].maxContext == tiers[i].maxContext
        && xs[i].timeoutS == tiers[i].timeoutS
  }

  /** The running gate gets the configured bounds, backends, models and routing entries. */
  lemma SetupMeans(c: Configuration)
    requires Valid(c)
    ensures var su := SetupOf(c);
            && Finite(su.staleAfter) == c.staleAfterS && Finite(su.refreshAfter) == c.refreshIntervalS
            && |su.names| == |c.backends|
            && (forall i | 0 <= i < |su.names| :: su.names[i] == c.backends[i].name)
            && (forall b <- c.backends :: b.name in su.explicit && su.explicit[b.name] == b.models)
            && (forall b <- c.backends | b.isDefault :: su.defaultName == b.name)
            && ((forall b <- c.backends :: !b.isDefault) ==> su.defaultName == c.backends[0].name)
            && su.select == StartIndex
            && forall m :: SpecGiven(c.routing, m, if m in su.specs then Some(su.specs[m]) else None)
  {
    OneDefault(c);
    forall b <- c.backends
      ensures b.name in SetupOf(c).explicit && SetupOf(c).explicit[b.name] == b.models
      ensures b.isDefault ==> SetupOf(c).defaultName == b.name
    {
      EntryIsItsOwn(c, b);
      var i :| 0 <= i < |c.backends| && c.backends[i] == b;
      assert b.isDefault ==> DefaultAt(c, i);
    }
    forall m ensures SpecGiven(c.routing, m, if m in SetupOf(c).specs then Some(SetupOf(c).specs[m]) else None) {
      SpecIsLast(c.routing, m);
    }
  }

  /** The spec of the last entry for a model, none without an entry. */
  ghost predicate SpecGiven(entries: seq<RoutingEntry>, m: Model, spec: Option<RoutingSpec>) {
    match spec
    case None => forall e <- entries :: e.model != m
    case Some(x) => exists i :: 0 <= i < |entries| && entries[i] == RoutingEntry(m, x)
                                && forall j | i < j < |entries| :: entries[j].model != m
  }

  lemma {:induction false} SpecIsLast(entries: seq<RoutingEntry>, m: Model)
    ensures SpecGiven(entries, m, if m in SpecsOf(entries) then Some(SpecsOf(entries)[m]) else None)
  {
    if entries == [] {
    } else {
      var n := |entries| - 1;
      var init, last := entries[..n], entries[n];
      assert entries == init + [last];
      SpecIsLast(init, m);
      if last.model == m {
        assert entries[n] == RoutingEntry(m, last.spec);
      } else if m in SpecsOf(init) {
        var i :| 0 <= i < n && init[i] == RoutingEntry(m, SpecsOf(init)[m])
                 && forall j | i < j < n :: init[j].model != m;
        assert entries[i] == RoutingEntry(m, SpecsOf(entries)[m]);
      }
    }
  }

  lemma {:induction false} DefaultIsFlagged(backends: seq<BackendEntry>)
    ensures FirstFlagged(backends).Some? ==>
            exists b <- backends :: b.isDefault && b.name == FirstFlagged(backends).value
    ensures FirstFlagged(backends).None? ==> forall b <- backends :: !b.isDefault
  {
    if backends == [] {
    } else {
      assert backends == [backends[0]] + backends[1..];
      DefaultIsFlagged(backends[1..]);
    }
  }

  /** Exactly one backend is the default: the flagged one if any is flagged, else the first. */
  lemma OneDefault(c: Configuration)
    requires BackendsOk(c)
    ensures exists i :: 0 <= i < |c.backends| && DefaultAt(c, i)
    ensures forall i, j :: 0 <= i < |c.backends| && 0 <= j < |c.backends| && DefaultAt(c, i) && DefaultAt(c, j) ==>
              i == j
    ensures forall i | 0 <= i < |c.backends| && c.backends[i].isDefault :: DefaultAt(c, i)
    ensures (forall b <- c.backends :: !b.isDefault) ==> DefaultAt(c, 0)
  {
    DefaultIsFlagged(c.backends);
    var flagged := FirstFlagged(c.backends);
    if flagged.None? {
      assert DefaultAt(c, 0);
    } else {
      var b :| b in c.backends && b.isDefault && b.name == flagged.value;
      var i :| 0 <= i < |c.backends| && c.backends[i] == b;
      assert DefaultAt(c, i);
    }
  }

  ghost predicate DefaultAt(c: Configuration, i: nat)
    requires i < |c.backends|
  {
    c.backends[i].name == DefaultName(c.backends)
  }

  /** Every accepted configuration establishes what the running gate relies on: per-backend settings within
      their ranges after the fallback, distinct names, one default among them, routing orders that are
      distinct names of configured backends, and positive freshness bounds. */
  lemma AcceptedEstablishesSetup(c: Configuration)
    requires Valid(c) && forall e <- c.routing :: EntryParses(e)
    ensures ValidSetup(SetupOf(c))
    ensures var su := SetupOf(c);
            && su.staleAfter > 0.0 && su.refreshAfter > 0.0
            && (forall m <- su.specs :: su.specs[m].order != [] && forall n <- su.specs[m].order :: n in su.names)
            && (forall m <- su.specs :: su.specs[m].policy == LargeSmall <==> su.specs[m].thresholdTokens.Some?)
            && (forall b <- c.backends :: b.name in su.settings && su.settings[b.name] == SettingsOf(c, b))
  {
    var su := SetupOf(c);
    EntriesAreNamed(c.backends);
    StartIndexInRange();
    OneDefault(c);
    forall n <- su.names ensures ValidSettings(su.settings[n]) {
      SettingsResolve(c, EntryNamed(c.backends, n).value);
    }
    forall m <- su.specs
      ensures Distinct(su.specs[m].order) && su.specs[m].order != []
      ensures su.specs[m].policy == LargeSmall <==> su.specs[m].thresholdTokens.Some?
      ensures forall n <- su.specs[m].order :: n in su.names
    {
      OrderIsOfNames(c, m);
    }
    forall b <- c.backends ensures b.name in su.settings && su.settings[b.name] == SettingsOf(c, b) {
      EntryIsItsOwn(c, b);
    }
  }

  lemma OrderIsOfNames(c: Configuration, m: Model)
    requires OrdersKnown(c) && (forall e <- c.routing :: EntryParses(e)) && m in SpecsOf(c.routing)
    ensures var spec := SpecsOf(c.routing)[m];
            && Distinct(spec.order) && spec.order != [] && (spec.policy == LargeSmall <==> spec.thresholdTokens.Some?)
            && forall n <- spec.order :: n in NamesOf(c.backends)
  {
    SpecIsLast(c.routing, m);
    var i :| 0 <= i < |c.routing| && c.routing[i] == RoutingEntry(m, SpecsOf(c.routing)[m])
             && forall j | i < j < |c.routing| :: c.routing[j].model != m;
    var e := c.routing[i];
    assert e in c.routing && EntryParses(e);
    forall n <- e.spec.order ensures n in NamesOf(c.backends) {
      var b :| b in c.backends && b.name == n;
      var i :| 0 <= i < |c.backends| && c.backends[i] == b;
      assert NamesOf(c.backends)[i] == n;
    }
  }

  lemma EntryIsItsOwn(c: Configuration, b: BackendEntry)
    requires BackendsOk(c) && b in c.backends
    ensures b.name in NamesOf(c.backends) && EntryNamed(c.backends, b.name) == Some(b)
  {
    var i :| 0 <= i < |c.backends| && c.backends[i] == b;
    assert NamesOf(c.backends)[i] == b.name;
    NamedEntry(c.backends, b.name);
    var e := EntryNamed(c.backends, b.name).value;
    var j :| 0 <= j < |c.backends| && c.backends[j] == e;
  }
}
