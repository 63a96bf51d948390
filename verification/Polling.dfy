/**
 What one poll does to a backend (the fetch half of `run_poller`'s tick, src/gate/poller.py): three
 edge-triggered signals, the caches, and the re-anchoring of the counter.
 */
module Polling {
  import opened Wrappers
  import opened Numbers
  import opened Router
  import opened Routing
  import opened Metrics
  import opened Backends

  /** A metrics fetch fails in transport or is answered. */
  datatype Fetch = TransportError | Answer(status: int, body: Body)

  /** What the poller gets from a fetch: no sample when the transport failed. */
  type Poll = Option<MetricsSample>

  function PollOf(f: Fetch): Poll {
    if f.TransportError? then None else Some(FetchMetrics(f.status, f.body))
  }

  ghost predicate CoherentPoll(o: Poll) {
    o.Some? ==> Coherent(o.value)
  }

  lemma FetchIsCoherent(f: Fetch)
    ensures CoherentPoll(PollOf(f))
  {
    if f.Answer? {
      FetchedSampleIsCoherent(f.status, f.body);
    }
  }

  // ----- the signals -----

  /** One edge-triggered signal: the app's flag, the value the poller last signalled, and every call made. */
  datatype Edge<T> = Edge(flag: T, last: Option<T>, calls: seq<T>)

  /** The callback is made, and the flag set, only when the value changes. */
  function Fire<T(==)>(e: Edge<T>, v: T): Edge<T> {
    if e.last == Some(v) then e else Edge(v, Some(v), e.calls + [v])
  }

  /** `warnings` counts the warnings about an unavailable metrics endpoint. */
  datatype Signals = Signals(engine: Edge<Engine>, unavailable: Edge<bool>, capacityMissing: Edge<bool>, warnings: nat)

  const NO_SIGNALS := Signals(Edge(Unknown, None, []), Edge(false, None, []), Edge(false, None, []), 0)

  function FlagsOf(g: Signals): Flags {
    Flags(g.engine.flag, g.capacityMissing.flag, g.unavailable.flag)
  }

  predicate Recognised(s: MetricsSample) {
    s.observed && s.engine in {Vllm, Sglang}
  }

  function SignalUnavailable(g: Signals, now: bool): Signals {
    g.(unavailable := Fire(g.unavailable, now),
       warnings := g.warnings + (if now && g.unavailable.last != Some(now) then 1 else 0))
  }

  function Signal(g: Signals, o: Poll): Signals {
    match o
    case None => g
    case Some(s) =>
      var h := SignalUnavailable(g, !Recognised(s));
      if s.observed
      then h.(engine := Fire(h.engine, s.engine), capacityMissing := Fire(h.capacityMissing, s.capacityTokens.None?))
      else h
  }

  // ----- the caches and the counter -----

  /** `max(mapping.values())`. */
  ghost function GreatestValue(m: map<string, real>): (r: real)
    requires m != map[]
    ensures IsGreatestValue(m, r)
  {
    GreatestValueExists(m);
    var r :| IsGreatestValue(m, r);
    r
  }

  lemma {:induction false} GreatestValueExists(m: map<string, real>)
    requires m != map[]
    ensures exists r :: IsGreatestValue(m, r)
    decreases |m|
  {
    var k :| k in m;
    var rest := m - {k};
    assert forall j <- m :: j == k || (j in rest && rest[j] == m[j]);
    if rest == map[] {
      assert IsGreatestValue(m, m[k]);
    } else {
      GreatestValueExists(rest);
      var r :| IsGreatestValue(rest, r);
      assert IsGreatestValue(m, MaxReal(r, m[k]));
    }
  }

  /** The usage cache after an observed body; `t1` and `t2` are the clock readings of its two updates. */
  ghost function RefreshFeed(f: Feed, s: MetricsSample, t1: real, t2: real): Feed {
    var single := if s.usageFrac.Some? then f.(usage := s.usageFrac, fetchedAt := Some(t1)) else f;
    if s.byModel.Some? && s.byModel.value != map[]
    then Feed(Some(GreatestValue(s.byModel.value)), Some(t2), s.byModel.value)
    else single
  }

  /** A mapping has one greatest value. */
  lemma GreatestIsUnique(m: map<string, real>, r: real)
    requires IsGreatestValue(m, r)
    ensures m != map[] && GreatestValue(m) == r
  {
    var k :| k in m && m[k] == r;
    var j :| j in m && m[j] == GreatestValue(m);
  }

  /** The overall usage and its breakdown agree: storing one and then the other stores the same value. */
  lemma BothUpdatesAgree(f: Feed, s: MetricsSample, t1: real, t2: real)
    requires Coherent(s)
    ensures var fed := RefreshFeed(f, s, t1, t2);
            if s.usageFrac.Some? then fed == Feed(s.usageFrac, Some(t2), s.byModel.value) else fed == f
  {
    if s.usageFrac.Some? {
      GreatestIsUnique(s.byModel.value, s.usageFrac.value);
    }
  }

  function AnchorOf(b: Backend, s: MetricsSample): int {
    AnchorRemainingTokens(s.capacityTokens.GetOr(0), b.settings.targetFrac, s.usageFrac.GetOr(0.0))
  }

  /** The counter is unanchored by a body without capacity and re-anchored by one with usage and
      capacity. The anchor sequence moves only with a re-anchor. */
  ghost function Refresh(b: Backend, o: Poll, t1: real, t2: real): Backend {
    if o.None? || !o.value.observed then b
    else
      var s := o.value;
      var fed := b.(feed := RefreshFeed(b.feed, s, t1, t2));
      if s.capacityTokens.None? then fed.(counter := None)
      else if s.usageFrac.Some?
      then fed.(counter := Some(AnchorOf(b, s)), anchorSeq := b.anchorSeq + 1, capacity := s.capacityTokens)
      else fed.(capacity := s.capacityTokens)
  }

  /** The ledger follows: an anchor or an unanchor drops every outstanding charge. */
  function RefreshLedger(l: Ledger, b: Backend, o: Poll): Ledger {
    if Unanchors(o) then l.(charges := map[])
    else if Anchors(o) then Ledger(AnchorOf(b, o.value), o.value.capacityTokens.value, o.value.usageFrac.value, map[])
    else l
  }

  predicate Anchors(o: Poll) {
    o.Some? && o.value.observed && o.value.usageFrac.Some? && o.value.capacityTokens.Some?
  }

  predicate Unanchors(o: Poll) {
    o.Some? && o.value.observed && o.value.capacityTokens.None?
  }

  /** Each poll that refreshes the usage cache re-anchors or unanchors in the same atomic block, so a
      counter driven negative while the feed was stale is never read as fresh. */
  lemma RefreshKeepsAccounts(
      b: Backend, l: Ledger, o: Poll, t1: real, t2: real, before: real, now: real, staleAfter: real)
    requires Accounted(b, l, before, staleAfter) && before <= t1 <= t2 <= now && CoherentPoll(o)
    ensures Accounted(Refresh(b, o, t1, t2), RefreshLedger(l, b, o), now, staleAfter)
  {
    AccountedLater(b, l, before, now, staleAfter);
    if Anchors(o) {
      AnchorWithinHeadroom(o.value.capacityTokens.value, b.settings.targetFrac, o.value.usageFrac.value);
    }
  }

  /** What a fetch does to the backend, field by field. A failed or unanswered fetch does nothing. A body's usage is
      stored with its breakdown and time; its capacity replaces the last known one; without a capacity the
      counter is lost, and with both it is anchored anew under the next sequence number. */
  lemma RefreshStores(b: Backend, f: Fetch, t1: real, t2: real)
    ensures f.TransportError? || f.status != 200 ==> Refresh(b, PollOf(f), t1, t2) == b
    ensures f.Answer? && f.status == 200 ==>
              var c, s := Refresh(b, PollOf(f), t1, t2), FetchMetrics(200, f.body);
              && c.settings == b.settings && c.flags == b.flags
              && (s.usageFrac.None? ==> c.feed == b.feed)
              && (s.usageFrac.Some? ==> c.feed == Feed(s.usageFrac, Some(t2), s.byModel.GetOr(map[])))
              && c.capacity == (if s.capacityTokens.Some? then s.capacityTokens else b.capacity)
              && (s.capacityTokens.None? ==> c.counter.None? && c.anchorSeq == b.anchorSeq)
              && (s.capacityTokens.Some? && s.usageFrac.None? ==>
                    c.counter == b.counter && c.anchorSeq == b.anchorSeq)
              && (s.capacityTokens.Some? && s.usageFrac.Some? ==>
                    && c.anchorSeq == b.anchorSeq + 1
                    && c.counter == Some(AnchorRemainingTokens(s.capacityTokens.value, b.settings.targetFrac,
                                             s.usageFrac.value)))
  {
    if f.Answer? && f.status == 200 {
      FetchedSampleIsCoherent(200, f.body);
      BothUpdatesAgree(b.feed, FetchMetrics(200, f.body), t1, t2);
    }
  }

  /** A poll that leaves the sequence alone leaves an anchored counter and its ledger alone; the counter
      is anchored afterwards iff this poll anchored it, or it was anchored and this poll had no
      capacity missing. */
  lemma RefreshMovesSequence(b: Backend, l: Ledger, o: Poll, t1: real, t2: real)
    ensures var c, m := Refresh(b, o, t1, t2), RefreshLedger(l, b, o);
            && c.settings == b.settings
            && (c.anchorSeq == b.anchorSeq || (c.anchorSeq == b.anchorSeq + 1 && m.charges == map[]))
            && (c.anchorSeq == b.anchorSeq && c.counter.Some? ==> c.counter == b.counter && m == l)
            && (m.charges == map[] || (m == l && c.anchorSeq == b.anchorSeq && c.counter == b.counter))
            && (c.counter.Some? <==> Anchors(o) || (b.counter.Some? && !Unanchors(o)))
  {
  }

  // ----- edge-triggered signals agree with the levels of the history -----

  function LastSample(seen: seq<Poll>): Poll {
    if seen == [] then None
    else if seen[|seen| - 1].Some? then seen[|seen| - 1]
    else LastSample(seen[..|seen| - 1])
  }

  function LastObserved(seen: seq<Poll>): Poll {
    if seen == [] then None
    else if seen[|seen| - 1].Some? && seen[|seen| - 1].value.observed then seen[|seen| - 1]
    else LastObserved(seen[..|seen| - 1])
  }

  /** Body `k` anchored the counter and no body without capacity was observed since. */
  ghost predicate AnchoredSince(seen: seq<Poll>, k: nat) {
    k < |seen| && Anchors(seen[k]) && forall j | k < j < |seen| :: !Unanchors(seen[j])
  }

  ghost predicate AnchoredBy(seen: seq<Poll>) {
    exists k :: AnchoredSince(seen, k)
  }

  predicate NeverRepeats<T(==)>(xs: seq<T>) {
    forall i | 0 <= i < |xs| - 1 :: xs[i] != xs[i + 1]
  }

  function LastOf<T>(xs: seq<T>): Option<T> {
    if xs == [] then None else Some(xs[|xs| - 1])
  }

  function CountTrue(xs: seq<bool>): nat {
    if xs == [] then 0 else CountTrue(xs[..|xs| - 1]) + (if xs[|xs| - 1] then 1 else 0)
  }

  /** The flag is the last relevant value, or `initial` before there is one; the poller remembers that
      value; and no call repeats the one before it. */
  ghost predicate Follows<T>(e: Edge<T>, last: Option<T>, initial: T) {
    e.last == last && e.flag == last.GetOr(initial) && LastOf(e.calls) == last && NeverRepeats(e.calls)
  }

  function EngineLevel(last: Poll): Option<Engine> {
    if last.None? then None else Some(last.value.engine)
  }

  function UnavailableLevel(last: Poll): Option<bool> {
    if last.None? then None else Some(!(last.value.observed && last.value.engine in {Vllm, Sglang}))
  }

  function CapacityMissingLevel(last: Poll): Option<bool> {
    if last.None? then None else Some(last.value.capacityTokens.None?)
  }

  // What each signal was computed to be, poll by poll; a poll that says nothing about it adds nothing.

  function EngineReadings(seen: seq<Poll>): seq<Engine> {
    if seen == [] then []
    else
      var o := seen[|seen| - 1];
      EngineReadings(seen[..|seen| - 1]) + (if o.Some? && o.value.observed then [o.value.engine] else [])
  }

  function UnavailableReadings(seen: seq<Poll>): seq<bool> {
    if seen == [] then []
    else
      var o := seen[|seen| - 1];
      UnavailableReadings(seen[..|seen| - 1]) + (if o.Some? then [UnavailableLevel(o).value] else [])
  }

  function MissingReadings(seen: seq<Poll>): seq<bool> {
    if seen == [] then []
    else
      var o := seen[|seen| - 1];
      MissingReadings(seen[..|seen| - 1]) + (if o.Some? && o.value.observed then [o.value.capacityTokens.None?] else [])
  }

  /** The readings that differ from the one before them, the first one included. */
  function Changes<T(==)>(xs: seq<T>): seq<T> {
    if xs == [] then []
    else
      var n := |xs| - 1;
      Changes(xs[..n]) + (if n == 0 || xs[n - 1] != xs[n] then [xs[n]] else [])
  }

  /** How often the history entered the unavailable level. */
  function Entries(seen: seq<Poll>): nat {
    if seen == [] then 0
    else
      var init := seen[..|seen| - 1];
      var entered := UnavailableLevel(LastSample(seen)) == Some(true)
          && UnavailableLevel(LastSample(init)) != Some(true);
      Entries(init) + (if entered then 1 else 0)
  }

  /** Every signal follows the history: engine and capacity the last observed body, availability the last
      answered fetch. The calls made are exactly the changes of its readings, and there is one warning per
      entry into unavailable. */
  ghost predicate Levels(g: Signals, seen: seq<Poll>) {
    && Follows(g.engine, EngineLevel(LastObserved(seen)), Unknown)
    && Follows(g.unavailable, UnavailableLevel(LastSample(seen)), false)
    && Follows(g.capacityMissing, CapacityMissingLevel(LastObserved(seen)), false)
    && g.engine.calls == Changes(EngineReadings(seen))
    && g.unavailable.calls == Changes(UnavailableReadings(seen))
    && g.capacityMissing.calls == Changes(MissingReadings(seen))
    && g.warnings == CountTrue(g.unavailable.calls) == Entries(seen)
  }

  lemma FireFollows<T>(e: Edge<T>, last: Option<T>, initial: T, v: T)
    requires Follows(e, last, initial)
    ensures Follows(Fire(e, v), Some(v), initial)
  {
  }

  lemma LastStep(seen: seq<Poll>, o: Poll)
    ensures LastSample(seen + [o]) == if o.Some? then o else LastSample(seen)
    ensures LastObserved(seen + [o]) == if o.Some? && o.value.observed then o else LastObserved(seen)
  {
    assert (seen + [o])[..|seen|] == seen;
  }

  lemma WarningsStep(g: Signals, now: bool)
    requires g.warnings == CountTrue(g.unavailable.calls)
    ensures SignalUnavailable(g, now).warnings == CountTrue(SignalUnavailable(g, now).unavailable.calls)
  {
    assert (g.unavailable.calls + [now])[..|g.unavailable.calls|] == g.unavailable.calls;
  }

  /** The last reading of each signal is its level. */
  lemma {:induction false} EngineReadingsEndAtLevel(seen: seq<Poll>)
    ensures LastOf(EngineReadings(seen)) == EngineLevel(LastObserved(seen))
  {
    if seen == [] {
    } else {
      EngineReadingsEndAtLevel(seen[..|seen| - 1]);
    }
  }

  lemma {:induction false} MissingReadingsEndAtLevel(seen: seq<Poll>)
    ensures LastOf(MissingReadings(seen)) == CapacityMissingLevel(LastObserved(seen))
  {
    if seen == [] {
    } else {
      MissingReadingsEndAtLevel(seen[..|seen| - 1]);
    }
  }

  lemma {:induction false} UnavailableReadingsEndAtLevel(seen: seq<Poll>)
    ensures LastOf(UnavailableReadings(seen)) == UnavailableLevel(LastSample(seen))
  {
    if seen == [] {
    } else {
      UnavailableReadingsEndAtLevel(seen[..|seen| - 1]);
    }
  }

  lemma ChangesStep<T>(xs: seq<T>, v: T)
    ensures Changes(xs + [v]) == if LastOf(xs) == Some(v) then Changes(xs) else Changes(xs) + [v]
  {
    assert (xs + [v])[..|xs|] == xs;
  }

  lemma FireLogsChange<T>(e: Edge<T>, readings: seq<T>, v: T)
    requires e.last == LastOf(readings) && e.calls == Changes(readings)
    ensures Fire(e, v).calls == Changes(readings + [v])
  {
    ChangesStep(readings, v);
  }

  lemma ReadingsStep(seen: seq<Poll>, o: Poll)
    ensures o.Some? && o.value.observed ==>
              && EngineReadings(seen + [o]) == EngineReadings(seen) + [o.value.engine]
              && MissingReadings(seen + [o]) == MissingReadings(seen) + [o.value.capacityTokens.None?]
    ensures !(o.Some? && o.value.observed) ==>
              EngineReadings(seen + [o]) == EngineReadings(seen) && MissingReadings(seen + [o]) == MissingReadings(seen)
    ensures UnavailableReadings(seen + [o]) ==
            if o.Some? then UnavailableReadings(seen) + [!Recognised(o.value)] else UnavailableReadings(seen)
  {
    assert (seen + [o])[..|seen|] == seen;
  }

  lemma EntriesStep(seen: seq<Poll>, o: Poll)
    ensures Entries(seen + [o]) == Entries(seen) +
            if UnavailableLevel(LastSample(seen + [o])) == Some(true)
                && UnavailableLevel(LastSample(seen)) != Some(true) then 1 else 0
  {
    assert (seen + [o])[..|seen|] == seen;
  }

  /** The availability calls and the warnings stay those of the history. */
  lemma AvailabilityKeepsLog(g: Signals, seen: seq<Poll>, o: Poll)
    requires Levels(g, seen)
    ensures Signal(g, o).unavailable.calls == Changes(UnavailableReadings(seen + [o]))
    ensures Signal(g, o).warnings == Entries(seen + [o])
  {
    LastStep(seen, o);
    ReadingsStep(seen, o);
    EntriesStep(seen, o);
    UnavailableReadingsEndAtLevel(seen);
    if o.Some? {
      FireLogsChange(g.unavailable, UnavailableReadings(seen), !Recognised(o.value));
    }
  }

  /** So do the engine and capacity calls. */
  lemma ObservationKeepsLog(g: Signals, seen: seq<Poll>, o: Poll)
    requires Levels(g, seen)
    ensures Signal(g, o).engine.calls == Changes(EngineReadings(seen + [o]))
    ensures Signal(g, o).capacityMissing.calls == Changes(MissingReadings(seen + [o]))
  {
    ReadingsStep(seen, o);
    EngineReadingsEndAtLevel(seen);
    MissingReadingsEndAtLevel(seen);
    if o.Some? && o.value.observed {
      FireLogsChange(g.engine, EngineReadings(seen), o.value.engine);
      FireLogsChange(g.capacityMissing, MissingReadings(seen), o.value.capacityTokens.None?);
    }
  }

  lemma SignalKeepsLevels(g: Signals, seen: seq<Poll>, o: Poll)
    requires Levels(g, seen)
    ensures Levels(Signal(g, o), seen + [o])
  {
    LastStep(seen, o);
    AvailabilityKeepsLog(g, seen, o);
    ObservationKeepsLog(g, seen, o);
    if o.Some? {
      var s := o.value;
      WarningsStep(g, !Recognised(s));
      FireFollows(g.unavailable, UnavailableLevel(LastSample(seen)), false, !Recognised(s));
      if s.observed {
        FireFollows(g.engine, EngineLevel(LastObserved(seen)), Unknown, s.engine);
        FireFollows(g.capacityMissing, CapacityMissingLevel(LastObserved(seen)), false, s.capacityTokens.None?);
      }
    }
  }

  lemma AnchoredByStep(seen: seq<Poll>, o: Poll)
    ensures AnchoredBy(seen + [o]) <==> Anchors(o) || (AnchoredBy(seen) && !Unanchors(o))
  {
    var all := seen + [o];
    assert all[|seen|] == o;
    if k: nat :| AnchoredSince(all, k) {
      if k < |seen| {
        assert forall j | k < j < |seen| :: seen[j] == all[j];
        assert AnchoredSince(seen, k);
      }
    }
    if Anchors(o) {
      assert AnchoredSince(all, |seen|);
    } else if !Unanchors(o) {
      if k: nat :| AnchoredSince(seen, k) {
        assert AnchoredSince(all, k);
      }
    }
  }
}
