# Verified model of the gate

A Dafny model of the admission gate in front of a pool of inference backends: the per-backend counter of
remaining KV tokens, the request handlers that charge it and walk from candidate to candidate, the pollers that
anchor it, and the decision and selection arithmetic in between. To check the project:
`dafny verify dfyconfig.toml`.

## How it is modelled

- **The gate as a state machine** (`Gate.dfy`). Any number of handlers and one poller per backend run as atomic
  steps cut at the program's awaits: reading the body, the proxied request, the release of a discarded response,
  the metrics fetch, the model fetch and the sleep. The clock may advance anywhere and is read where the program
  reads it. Upstream answers, fetched bodies and arrivals are arbitrary. Any awaiting handler may abort with
  whatever it charged left in place. A run is any sequence of events.
- **The ledger** (`Backends.dfy`). Each backend carries a ghost ledger: its last anchor, the sample it came from, and
  the charges taken since, by request. Unanchoring does not move the anchor sequence. It is safe because an
  unanchored counter ignores a rollback and the next anchor does move the sequence
  (`Guarantees.RollbackCreditsOwnCharge`).
- **The program's own objects** (`Caches.dfy`, `States.dfy`, `Generation.dfy`, `PollerTask.dfy`, `ModelRegistry` in
  `Registry.dfy`). Classes with the program's fields and loops, each method proved against the pure step of the state
  machine. `App.dfy` proves one simulation per event over the shared objects; `Program.dfy` wires the whole program and
  proves that after any events its objects stand for the state the machine reaches, so what is proved of reachable
  states holds of the objects.
- **Layers**: `Numbers`, `Router`, `Routing`, `Metrics` (arithmetic, decisions, selection, parsers), `Polling` and `Walk`
  (one poller, one handler), `Invariants`, `Runs` and `Refinement` (what every step keeps and does), `Guarantees`,
  `Snapshot`, `Solo`, `RoundRobin` and `Progress` (the results), `Config` (what validation establishes).

Idealisation: fractions, percentages, margins and times are exact reals, where the program uses binary floats.
Tokens and whole seconds are integers. Capacity is a natural number and may be zero.

Where the code and its prose disagree the model follows the code:

- The comment at `src/gate/app.py:866` reads 502 as "every candidate failed at transport". The code also answers 502
  when an earlier candidate answered 5xx and the last one failed at transport (`Snapshot.BadGatewayDespite5xx`; the
  exact condition is `Snapshot.LastCandidateDecides`).
- The docstring at `src/gate/models.py:112` says newly owned models are claimed from any previous owner. The code takes
  nothing from other backends (`Registry.SyncClaimsNothing`; when it does claim, `Registry.SyncClaimsIff`).
- The capacity parsers promise a positive integer or nothing. A gauge that peaks between 0 and 1 gives zero
  (`Metrics.CapacityIsZeroIff`).

## Model

| member | source | states |
|---|---|---|
| `Guarantees.FreshIsNotOversubscribed` | src/gate/app.py:655-714 | In every reachable state of any interleaving of handlers, pollers, clock and aborts, a backend fetched no longer than the bound ago has a counter that is unanchored or between 0 and its last anchor, and the charges outstanding against that anchor are at most capacity * (target - usage) for the cached usage: capacity * target for a usage at or below zero, nothing for one at or above the target |
| `Guarantees.CounterIsAnchorLessCharges` | src/gate/app.py:708-742 | Conservation: an anchored counter is always its last anchor minus the outstanding charges, each of which is the exact cost of one request that holds it on that backend, so the counter never exceeds its anchor; an unanchored backend has no charges |
| `Guarantees.RollbackCreditsOwnCharge` | src/gate/app.py:717-742 | In every reachable state, the rollback a waiting request would run gives back exactly the charge that request still has in the current anchor, or nothing: also across an unanchor that did not move the sequence. Under the sequence it was charged in, an anchored counter holds its full cost |
| `Guarantees.NetCharge` | src/gate/app.py:702-788 | A request that ends in 429, 502 or a propagated 5xx has no charge in any backend's current epoch; a served one at most its own cost and only on the forwarder; an aborted one only where it was waiting |
| `Backends.ChargeKeepsAccounts` | src/gate/app.py:702-714 | Admission keeps the books: an admitted charge cannot drive a fresh counter below zero |
| `Backends.RollbackKeepsAccounts` | src/gate/app.py:721-742 | A guarded rollback removes exactly the request's own charge from the ledger and keeps the books |
| `Backends.AccountedIsNotOversubscribed` | src/gate/metrics.py:490-545 | Balanced books imply: counter at most anchor; and for a backend fetched within the bound, counter non-negative and charges at most capacity * (target - usage) |
| `Polling.RefreshKeepsAccounts` | src/gate/poller.py:379-405 | Every poll that refreshes the usage cache re-anchors or unanchors in the same step, so a counter driven negative while stale is never read as fresh |
| `Polling.RefreshStores` | src/gate/poller.py:379-405 | One poll, field by field: a failed or non-200 fetch changes nothing; usage is stored with breakdown and time, capacity replaces the last known one, no capacity unanchors, and usage with capacity anchors anew under the next sequence |
| `Polling.RefreshMovesSequence` | src/gate/poller.py:379-403 | A poll either moves the anchor sequence and empties the ledger, or leaves an anchored counter and its ledger alone; anchored afterwards iff it anchored, or was anchored and this poll did not lack capacity |
| `Runs.StepKeepsInv` | src/gate/app.py:570-887 | Every event of every handler and poller keeps the whole invariant (books, links between charges and handlers, walks, signals, round-robin indices) |
| `Runs.RunKeepsInv` | src/gate/app.py:570-887 | The invariant holds after every sequence of events |
| `Runs.CandidatesServe` | src/gate/app.py:585-606 | A request goes to exactly the serving backends its model's routing entry names (all serving ones without an entry), in that order and under that policy; to the default backend alone only when there is none |
| `Runs.ResolvedCandidates` | src/gate/app.py:585-606 | Resolution always gives at least one candidate, all distinct and all configured backends |
| `Guarantees.VisitsInRotatedOrder` | src/gate/app.py:648-653 | A request visits its candidates in rotated order, none twice, and all of them before it is answered without service |
| `Guarantees.ExhaustionRule` | src/gate/app.py:773-887 | A finished request is served iff a candidate served it (the last visited); otherwise 429 iff some candidate rejected, a propagated 5xx iff none rejected and the last answered 5xx, 502 iff none rejected and the last failed in transport |
| `Guarantees.RetryAfterRule` | src/gate/app.py:790-834 | Retry-After is the maximum over the rejects and the named rejector is the first in walk order that asks for it |
| `Guarantees.FailOpenRule` | src/gate/app.py:655-703 | Every recorded reject came from a candidate whose usage was fetched no longer than the bound before it was judged, for a request of known size over the limit of the greatest crossed tier or over the counter, with the wait, reason and tier of the layer that asks for more; every other visit was not to be rejected; so a request of unknown size, or one whose candidates all had old feeds, never gets 429 |
| `Guarantees.AccountingRule` | src/gate/app.py:679-787 | Every completed request made one failover record per consecutive pair of the walk with the matching reason, exactly one forwarded-or-rejected record, and a rejection record iff rejected |
| `Walk.RunWalkKeepsTrack` | src/gate/app.py:648-700 | Running from one await to the next keeps the walk's variables equal to what the visits say |
| `Walk.RunWalkStops` | src/gate/app.py:648-714 | A walk between awaits ends at an admitting candidate seen as it is now, or with a non-forwarded answer, having only extended its visits |
| `Walk.RunWalkJudges` | src/gate/app.py:655-703 | Every visit added carries the gate's own verdict about the backend it saw, with that backend's settings |
| `Walk.ReceiveKeepsTrack` | src/gate/app.py:716-788 | A proxied answer keeps the walk on track: transport error, 5xx with and without a next candidate, success |
| `Walk.ReceiveResult` | src/gate/app.py:716-788 | What came back is appended to the walk as transport failure, server error from 500 on, or service; the request is done iff it was answered below 500 |
| `Walk.ConcludeKeepsTrack` | src/gate/app.py:790-887 | The exhaustion code answers by the exhaustion rule and closes the records accordingly |
| `Walk.ReleaseKeepsTrack` | src/gate/app.py:743-755 | Releasing a discarded 5xx resumes the walk, or finishes with the 429 already decided |
| `Walk.AbortKeepsTrack` | src/gate/app.py:716-717 | An uncaught exception at an await keeps the visits made so far consistent |
| `Snapshot.PolicyIndependence` | src/gate/app.py:648-834 | On a frozen snapshot of backends and upstream outcomes any two policies, whatever they saw and wherever their indices stood, agree on whether some backend serves, whether the answer is 429 and the exact Retry-After, and leave the same backends unless served |
| `Snapshot.SnapshotDecides` | src/gate/app.py:773-834 | The answer of a walk on a snapshot is decided by the set of candidate answers: served iff some serves, 429 iff none serves and some rejects, with the greatest wait |
| `Snapshot.LastCandidateDecides` | src/gate/app.py:756-770 | What the start may still change: when all candidates fail, the last in walk order decides between its propagated 5xx and 502 |
| `Snapshot.BadGatewayDespite5xx` | src/gate/app.py:756-887 | Concrete refutation of the comment that 502 means every candidate failed at transport: a 5xx followed by a transport failure on the last candidate gives 502, and the other start propagates it |
| `Snapshot.FillRefinesPrimaryFallback` | src/gate/routing.py:197-227 | Walking from the candidate fill selects and walking from the first give the same response (up to which equal-wait reject a 429 names) and the same final backends |
| `Snapshot.FillSkipsRejects` | src/gate/routing.py:221-227 | Every candidate before fill's choice is one the walk rejects |
| `Snapshot.FillNoneIsRejected` | src/gate/app.py:625-630 | When fill finds no candidate, every candidate rejects and the answer is 429 from any start |
| `Snapshot.AlonePlays` | src/gate/app.py:648-887 | A request walking alone sees each candidate answer as the snapshot says, and only a serving backend keeps a charge |
| `RoundRobinTurns.RoundRobinCountsForwards` | src/gate/app.py:228-238 | With a fixed candidate count the stored index is the number of successful forwards modulo that count, under any interleaving |
| `RoundRobinTurns.SequentialFairness` | src/gate/app.py:214-238 | Of sequential requests, each walking under the indices its predecessors left and each served by its first attempt, every candidate serves exactly its own turns, and no candidate is ever more than one served request ahead of another |
| `RoundRobinTurns.PlayTakesTurns` | src/gate/app.py:625-634 | In such a play the k-th request is served by candidate (s + k) mod n, and the indices afterwards are those of as many forwards |
| `RoundRobinTurns.ServesInTurn` | src/gate/app.py:773-775 | After k forwards a request whose first attempt serves is served by candidate (s + k) mod n and moves the index on by one |
| `RoundRobinTurns.TurnIsNext` | src/gate/app.py:228-238 | The offset after k advances is (s + k) mod n and always in range, whatever index an earlier candidate count left |
| `Solo.AloneIsRun` | src/gate/app.py:570-887 | The snapshot walk is a run of the machine: from any state in which a request is about to read its body, its own events alone, with the clock standing still and every other handler, poller and the registry as they were, lead to exactly that response, those backends and the indices advanced iff it was served |
| `Solo.PlayIsRun` | src/gate/app.py:570-887 | A play of sequential requests is what the machine does: from a state with the indices the play has reached, the next request's own events lead to the play's next end and indices |
| `Routing.EvenMinimisesSpread` | src/gate/routing.py:149-194 | even picks a projectable candidate of least projected spread, strictly less than any earlier one's; an unprojectable one only if all are |
| `Routing.EvenReachesLeastLoadedSpread` | src/gate/routing.py:149-194 | With uniform increments over projectable candidates, the spread even reaches is the spread of sending to a least-loaded candidate |
| `Routing.ArgMinIsLeast` | src/gate/routing.py:172-194 | The scan's best index is the first of least score among the scored candidates, none iff none is scored |
| `Routing.ScanEven` | src/gate/routing.py:149-194 | The program's nested loops compute even's choice |
| `Routing.CollectUsages` | src/gate/routing.py:180-188 | The inner loop collects the projected usage of the candidate and the known usages of the others |
| `Routing.ScanFill` | src/gate/routing.py:197-227 | The early-exit loop computes fill's choice |
| `Routing.FirstFit` | src/gate/routing.py:221-227 | The choice is eligible and every earlier candidate is not; none iff none is eligible |
| `Routing.SelectBackendInRange` | src/gate/routing.py:230-275 | Every policy answers with an index in range, except fill, which may answer none and only when no candidate is eligible |
| `Routing.EvenSelects` | src/gate/routing.py:149-194 | Under even the selection is the first candidate that leaves the pool's usages closest together once it takes cost / capacity, among those with known usage and positive capacity; the first candidate when there is none |
| `Routing.FillSelects` | src/gate/routing.py:197-227 | Under fill the selection is k iff k is the first candidate whose size, usage or counter is unknown or whose counter covers the cost |
| `Routing.OthersSelect` | src/gate/routing.py:127-146 | Under large_small with several candidates the first is selected iff the size is known and at or above the threshold, else the second; with one candidate, under round_robin and under primary_fallback, the first |
| `Routing.LargerStartsEarlier` | src/gate/routing.py:127-146 | Under large_small a larger request never starts later than a smaller one or one of unknown size |
| `Gate.StartIndexMeans` | src/gate/app.py:625-634 | The walk starts at the stored index modulo the candidate count under round_robin, and otherwise at the selection, or at the first candidate when fill selects none |
| `Router.GoverningTierIsGreatest` | src/gate/router.py:96-109 | The governing tier is a crossed tier of greatest percentage; none iff no tier is crossed |
| `Router.FindGoverningTier` | src/gate/router.py:96-109 | The loop over the tiers computes the governing tier |
| `Router.ScanTiers` | src/gate/router.py:112-200 | The tiered decision, by the program's scan |
| `Router.DecideTierOrderFree` | src/gate/router.py:112-200 | With distinct percentages the tiered decision is the same for every permutation of the tiers |
| `Router.DecideTierRejects` | src/gate/router.py:112-200 | The tiered layer rejects iff usage and size are known and the size is over the limit of the greatest crossed tier, whose timeout it asks for |
| `Router.AnchorWithinHeadroom` | src/gate/router.py:220-236 | An anchor is the greatest token count that fits capacity * (target - usage), for usages below zero capacity * target and above the target nothing, and never exceeds the pool |
| `Router.AnchorIsTheGap` | src/gate/router.py:220-236 | For 0 <= usage <= target <= 1 the anchor is capacity * (target - usage) rounded down |
| `Router.AnchorAtTarget` | src/gate/router.py:220-236 | At or above the target usage the anchor is zero |
| `Router.ChargeCoversRequest` | src/gate/routing.py:116-124 | The charge covers the request and is the least integer not below tokens times margin; nothing for an unknown size |
| `Router.ScaledRetryClosedForm` | src/gate/router.py:239-258 | With something remaining the wait is min(max_s, min_s + ceil(min_s * effective / remaining)) |
| `Router.ScaledRetryRange` | src/gate/router.py:239-258 | Every wait lies in [min_s, max_s], and one for a request that does not fit is at least min(2 * min_s + 1, max_s) |
| `Router.ScaledRetryMonotone` | src/gate/router.py:239-258 | A larger request never waits less |
| `Router.ScaledRetryAntitone` | src/gate/router.py:239-258 | More headroom never waits longer, across the boundary at zero too |
| `Router.DecideAutoRejects` | src/gate/router.py:261-325 | The autoconfig layer rejects iff the size is known and the cost exceeds an anchored counter, with exactly the scaled wait |
| `Router.CombineIsConjunction` | src/gate/router.py:328-372 | Both layers together allow iff each does; the combined wait is never below a rejecting layer's and is one layer's own, ties reported as the tier |
| `Backends.EvaluateRejectsIff` | src/gate/app.py:655-676 | A candidate is rejected iff its usage was fetched no longer than the bound ago, the size is known, and the limit of its greatest crossed tier or its counter is exceeded |
| `Backends.EvaluateExplained` | src/gate/app.py:655-676 | The whole decision from the fields: old or absent feed and unknown size admit with their reasons; a fresh backend whose greatest crossed tier is exceeded and whose headroom is or is not answers the longer of the two waits with that layer's reason and tier, ties going to the tier |
| `Backends.OldFeedFailsOpen` | src/gate/app.py:655-676 | A backend last refreshed longer ago than the bound is never rejected; one refreshed within it is rejected exactly by its tier or its counter |
| `Backends.ViewShows` | src/gate/app.py:612-622 | What selection sees: usage only from a feed within the bound, and the counter, capacity and margin as they are |
| `Backends.FillEligibleIff` | src/gate/routing.py:221-227 | A candidate is eligible to fill exactly when the headroom test of the decision would let it pass |
| `Backends.RejectWaits` | src/gate/app.py:790-800 | A rejected request is always asked to wait, at least one second |
| `Backends.AdmittedFits` | src/gate/app.py:655-714 | A request admitted by a fresh, anchored backend costs no more than the counter shows |
| `Backends.FillPassesOverRejects` | src/gate/routing.py:221-227 | A candidate fill finds ineligible is one the walk's decision rejects |
| `Guarantees.SignalsFollowHistory` | src/gate/poller.py:322-405 | After every run each backend's flags equal the level of its fetch history, the callbacks made are exactly the changes of its readings, warnings are as many as the history's entries into unavailable, and the counter is anchored iff some body anchored it with no capacity-missing body since |
| `Polling.SignalKeepsLevels` | src/gate/poller.py:330-376 | One more poll keeps flags, calls and warnings equal to these functions of the fetch history |
| `PollerTask.BackendPoller.Fetched` | src/gate/poller.py:322-415 | The fetch half of a tick: signals, caches, counter, sequence and discovery cadence become what the pure poll makes of them |
| `PollerTask.BackendPoller.Observe` | src/gate/poller.py:322-405 | One fetch outcome: a transport error changes nothing, any other is read by the parsers' loops, signalled and stored |
| `PollerTask.BackendPoller.Discover` | src/gate/poller.py:416-456 | Explicit models are synced whatever the fetch gave, discovered ones only on success; dead entries are warned about, and a failure and a recovery are noticed once each |
| `Polling.AnchoredByStep` | src/gate/poller.py:379-403 | Anchored-by-history after one more poll, iff that poll anchors, or it was anchored and the poll does not lack capacity |
| `Polling.BothUpdatesAgree` | src/gate/poller.py:384-387 | Storing the overall usage and then the breakdown leaves the usage value unchanged |
| `PollerTask.BackendPoller.SignalSample` | src/gate/poller.py:330-376 | The callbacks set the backend's flags and are made only on a change |
| `PollerTask.BackendPoller.Store` | src/gate/poller.py:379-405 | An observed body unanchors, updates the caches, and re-anchors with the sequence bump in one step |
| `PollerTask.BackendPoller.DiscoveryDue` | src/gate/poller.py:413-415 | Due iff there was no attempt yet or now minus the last attempt is at least the refresh interval; a due attempt becomes the last one |
| `Gate.DiscoveryFollowsInterval` | src/gate/poller.py:411-415 | The fetch tick goes on to discovery on the first tick or when the interval has passed since the last attempt, which this one becomes, and otherwise to sleep |
| `Gate.DiscoverySyncs` | src/gate/poller.py:416-435 | After a discovery tick the backend owns its explicit models whatever the fetch gave, else the discovered ones if it succeeded, else what it owned; no other backend's set changes |
| `PollerTask.BackendPoller.WarnOrderViolations` | src/gate/poller.py:147-181 | Exactly the routing entries that name this backend for a model it does not own are added to the warned pairs, and no pair is warned about twice |
| `Metrics.FetchedSampleIsCoherent` | src/gate/metrics.py:548-570 | For every body and status the breakdown is absent iff the usage is, never empty, and has the usage as its maximum |
| `Metrics.FetchMeans` | src/gate/metrics.py:548-570 | A non-200 answer gives the empty sample; a 200 gives the engine by the families present, vLLM first, and that engine's usage, breakdown and capacity as the body's samples determine them |
| `Metrics.UsageMeans` | src/gate/metrics.py:218-280 | Usage is the greatest finite sample of the engine's gauge (for SGLang the newer gauge when it has a finite sample, else the legacy one), none iff it has none |
| `Metrics.BreakdownMeans` | src/gate/metrics.py:183-230 | The breakdown maps exactly the models with a finite sample of that gauge, each to the greatest; unlabelled samples count for default |
| `Metrics.CapacityMeans` | src/gate/metrics.py:236-306 | vLLM: the whole tokens of the greatest gauge sample if one is positive, else the greatest positive kv_cache_size_tokens label, none iff neither; SGLang: the newer gauge, else the legacy one, in the same terms |
| `Metrics.BreakdownMatchesMaximum` | src/gate/metrics.py:183-230 | For every sample list the per-model breakdown is empty iff no sample is finite, and otherwise its maximum is the overall maximum |
| `Metrics.ByModelIsGreatest` | src/gate/metrics.py:183-209 | Each model's entry is the greatest finite sample reported for it |
| `Metrics.FiniteSamples` | src/gate/metrics.py:130-147 | The nested loops collect the finite samples of the family in order |
| `Metrics.ByModelFrom` | src/gate/metrics.py:183-209 | The nested loops compute the per-model breakdown |
| `Metrics.CapacityFromConfigInfoLabels` | src/gate/metrics.py:150-180 | The nested loops compute the label capacity |
| `Metrics.LabelCapacityIsGreatest` | src/gate/metrics.py:150-180 | The label capacity is the greatest positive label, none iff there is none |
| `Metrics.GaugeCapacityIsGreatest` | src/gate/metrics.py:236-250 | A gauge gives a capacity iff some finite sample is positive, namely its greatest sample truncated |
| `Metrics.CapacityIsZeroIff` | src/gate/metrics.py:236-306 | Capacity is zero exactly when the gauge that is read peaks strictly between 0 and 1, although a positive integer is promised |
| `Metrics.FractionalGaugeGivesZero` | src/gate/metrics.py:548-570 | Concrete answered body, detected as vLLM, whose sample carries a capacity of zero |
| `Metrics.ReadMetrics` | src/gate/metrics.py:548-570 | The program's loops compute the sample that FetchMeans describes |
| `Caches.MetricsCache.Update` | src/gate/metrics.py:408-418 | A value is stored with its time; None keeps the last good value and its time |
| `Caches.MetricsCache.UpdateByModel` | src/gate/metrics.py:420-433 | A non-empty breakdown replaces the mapping, its maximum and the time; otherwise nothing changes |
| `Caches.MetricsCache.IsStale` | src/gate/metrics.py:443-454 | Stale iff there is no fetch time or now minus the fetch time exceeds the bound, on the object's own fields |
| `Caches.GreatestOf` | src/gate/metrics.py:431-432 | The loop finds a value that is attained and bounds the mapping |
| `Caches.CapacityCache.Update` | src/gate/metrics.py:472-477 | None keeps the last capacity and its time |
| `Caches.KvRemaining.Reanchor` | src/gate/metrics.py:510-512 | The counter becomes the anchor |
| `Caches.KvRemaining.Unanchor` | src/gate/metrics.py:514-522 | The counter becomes unanchored |
| `Caches.KvRemaining.Take` | src/gate/metrics.py:524-531 | An anchored counter drops by the charge, unclamped; an unanchored one stays |
| `Caches.KvRemaining.GiveBack` | src/gate/metrics.py:533-541 | The inverse of a charge on an anchored counter |
| `States.BackendState.Judge` | src/gate/app.py:655-676 | The decision over the mutable caches and counter is the pure decision about the backend they stand for, which EvaluateExplained determines from the fields |
| `States.BackendState.Look` | src/gate/app.py:612-622 | The selection view shows no usage when the feed is stale |
| `States.BackendState.OnReanchor` | src/gate/app.py:260-274 | The callback moves the anchor sequence by one and nothing else |
| `States.BackendState.OnEngine` | src/gate/app.py:303-315 | The callback sets the engine flag only |
| `States.BackendState.OnCapacityUnavailable` | src/gate/app.py:241-257 | The callback sets the capacity flag only |
| `States.BackendState.OnMetricsUnavailable` | src/gate/app.py:318-333 | The callback sets the metrics flag only |
| `States.Pool.Admit` | src/gate/app.py:708-714 | A charge is placed on one backend under its current sequence; every other backend is as it was |
| `States.Pool.RollBack` | src/gate/app.py:721-742 | The guarded rollback touches one backend only |
| `States.RoutingState.Offset` | src/gate/app.py:228-232 | The offset is the stored index modulo the candidate count, always in range |
| `States.RoutingState.Advance` | src/gate/app.py:234-238 | One forward advances the model's index and no other |
| `Generation.GenerationHandler.ReadBody` | src/gate/app.py:571-714 | From the body to the first await: resolution, views, selection, rotation and walk over the mutable state give the pure walk from the selected candidate, with its charge placed |
| `Generation.GenerationHandler.WalkOn` | src/gate/app.py:648-714 | The loop over candidates equals the pure walk and charges only the backend it stops at |
| `Generation.GenerationHandler.Exhaust` | src/gate/app.py:790-887 | The code after the loop equals the pure conclusion |
| `Generation.GenerationHandler.Served` | src/gate/app.py:773-788 | Success advances the round-robin index and records the forward |
| `Generation.GenerationHandler.Failed` | src/gate/app.py:717-771 | A failed proxy call rolls its charge back under the guard and then walks on, or stops to release the response |
| `Generation.GenerationHandler.Released` | src/gate/app.py:743-755 | After the release the walk goes on, or the decided 429 is answered |
| `Generation.GenerationHandler.Fail` | src/gate/app.py:716-717 | Any other exception ends the request with its charge left in place |
| `Generation.WorstReject` | src/gate/app.py:799-802 | The two scans find the greatest wait and the first reject asking for it |
| `Generation.LookAt` | src/gate/app.py:612-622 | The loop builds one view per candidate |
| `Generation.Select` | src/gate/routing.py:230-275 | The policy's own loops compute the selection that EvenSelects, FillSelects and OthersSelect determine from the views |
| `Generation.ChooseStart` | src/gate/app.py:625-634 | The start is the selection, the first candidate if there is none, rotated under round robin |
| `App.AppState.ReadBody` | src/gate/app.py:571-714 | Simulation: if the shared objects and the handler object stand for a reachable state, reading the body leaves them standing for the machine's next state |
| `App.AppState.Answered` | src/gate/app.py:716-788 | The same for an answer or a transport failure of the proxied request |
| `App.AppState.Released` | src/gate/app.py:743-755 | The same for the release of a discarded response |
| `App.AppState.Failed` | src/gate/app.py:716-717 | The same for any other exception |
| `App.AppState.Fetched` | src/gate/poller.py:322-415 | The same for a poller object and the fetch half of its tick |
| `App.AppState.Discovered` | src/gate/poller.py:416-456 | The same for the discovery half |
| `App.AppState.Woke` | src/gate/poller.py:457-457 | The same for the end of the sleep |
| `Program.Gateway.Perform` | src/gate/app.py:461-570 | Any event on the whole program, with one object per request and per poller: all objects stand for the machine's next state, those the event does not concern as they were |
| `Program.Start` | src/gate/app.py:461-570 | The wiring builds objects that stand for the machine's initial state |
| `Program.RunProgram` | src/gate/app.py:461-570 | After any sequence of possible events from the start, the program's objects stand for the state the machine reaches |
| `Program.ImpossibleIsIdle` | src/gate/app.py:570-887 | An event that is not possible changes nothing in the machine, so possible events reach every reachable state |
| `Program.CounterObjectsAreNotOversubscribed` | src/gate/app.py:655-714 | Whenever the program's objects stand for a reachable state, a counter object whose cache object is fresh is unanchored or not negative |
| `Program.HandlerObjectsAnswerByTheRule` | src/gate/app.py:773-887 | A handler object that has answered did so by the exhaustion rule and holds that response |
| `Progress.RequestsEnd` | src/gate/app.py:570-887 | Whatever else happens, each own event of a request strictly uses up a measure of phase and unvisited candidates |
| `Progress.RequestsEndSoon` | src/gate/app.py:570-887 | A request with n candidates ends within 2n + 1 of its own events |
| `Progress.OwnEventProgresses` | src/gate/app.py:648-887 | Reading the body leaves at most two own events per candidate, and every later one leaves fewer than before |
| `Refinement.NoHandlerIsStuck` | src/gate/app.py:570-887 | In every reachable state the event a handler awaits is possible: no guard of the machine excludes a real step |
| `Registry.CandidatesFollowLastSync` | src/gate/models.py:109-153 | After any interleaving of syncs the candidates of a model are the registration order filtered by each backend's last synced set |
| `Guarantees.CandidatesAfterRun` | src/gate/poller.py:416-435 | After every run a model's candidates are the configured backends, in order, whose last sync included it |
| `Guarantees.RegistryFollowsSyncs` | src/gate/poller.py:416-435 | The registry after a run is the initial one with exactly the effective discovery ticks' syncs played on it; no other event touches it |
| `Registry.SyncsCommute` | src/gate/models.py:109-129 | Syncs of distinct backends commute |
| `Registry.SyncClaimsNothing` | src/gate/models.py:109-129 | A sync takes no model from another backend, contrary to its comment |
| `Registry.SyncClaimsIff` | src/gate/models.py:109-143 | After a sync a model resolves to the syncing backend iff that is the first default among the owners, or no owner is a default and it is the first owner |
| `Registry.SecondOwnerDoesNotClaim` | src/gate/models.py:109-143 | Concrete registry: a second backend that syncs a model already owned does not get it |
| `Registry.ResolvedIsOwner` | src/gate/models.py:131-143 | A model resolves iff some backend owns it, to an owner, and to a default backend whenever one owns it |
| `Registry.ItemsListEachModelOnce` | src/gate/models.py:155-169 | Enumeration lists every owned model exactly once under the backend it resolves to, by registration and then model id |
| `Registry.ModelRegistry.RegisterBackend` | src/gate/models.py:98-107 | Registration appends the backend with an empty owned set and leads to no conflict |
| `Registry.ModelRegistry.Sync` | src/gate/models.py:109-129 | An unregistered name fails and changes nothing; otherwise the owned set is replaced and every conflict there is has been warned about, none twice |
| `Registry.ModelRegistry.Resolve` | src/gate/models.py:131-143 | Resolves as specified, warning exactly about the model's conflicting owners |
| `Registry.ModelRegistry.ResolveCandidates` | src/gate/models.py:145-153 | The owners in registration order |
| `Registry.ModelRegistry.Enumerate` | src/gate/models.py:155-169 | The loops compute the enumeration |
| `Registry.ModelRegistry.PickWinner` | src/gate/models.py:175-198 | The collision policy, with one warning per model and backend ever |
| `Config.AcceptedEstablishesSetup` | src/gate/config.py:536-675 | Every accepted configuration resolves, after per-backend fallback, to settings in range with distinct tiers, distinct names, a default among them, and routing orders of distinct configured names |
| `Config.OneDefault` | src/gate/app.py:417-428 | Exactly one backend is the default: the flagged one, else the first |
| `Config.SettingsResolve` | src/gate/app.py:429-457 | A backend's knobs after fallback satisfy the runtime preconditions |
| `Config.SettingsFallBack` | src/gate/app.py:429-457 | Each knob of a backend is its own value where it has one, else the global value; the target percentage is divided by 100; tiers are taken over element by element |
| `Config.SetupMeans` | src/gate/app.py:417-457 | The running gate gets the configured staleness bound and refresh interval, the names in order, each backend's explicit models, the flagged or first default, and the last routing entry of each model |
| `Config.Validate` | src/gate/config.py:536-586 | Validation passes exactly the valid configurations |
| `Config.ValidateGlobals` | src/gate/config.py:536-584 | The scalar checks pass exactly when every knob is in range, and otherwise name a knob that is not |
| `Config.ValidateTiers` | src/gate/config.py:540-551 | The tier scan passes exactly the valid lists and otherwise blames the first bad tier for what is wrong with it |
| `Config.ValidateEntry` | src/gate/config.py:611-654 | A backend entry passes iff its own knobs and its effective retry range are in range; a failure names a knob that is not |
| `Config.ValidateBackends` | src/gate/config.py:589-656 | The backend list passes iff non-empty, names distinct, entries in range and at most one flagged default |
| `Config.ValidateRouting` | src/gate/config.py:659-675 | Routing passes iff every order name is configured; a failure names one that is not |
| `Config.ParseOrder` | src/gate/config.py:333-343 | An order passes iff non-empty, of distinct non-empty names |
| `Config.ParseRouting` | src/gate/config.py:314-369 | Entries pass iff each has a model, a valid order, and a threshold of at least 1 exactly under large_small |

## Left out

- Float rounding: exact reals throughout, so a decision at a boundary that only rounding decides is not captured.
- Text, JSON and YAML parsing, environment variables and type checks: bodies are lists of families and samples, and configurations are parsed records.
- The proxied request itself and the streaming of its body: an outcome (transport failure or a status) is all the walk sees.
- FastAPI wiring, the informational endpoints, lifespan, shutdown and the exit of the process when a poller dies.
- Statistics backend and log text: only the fact and the arguments of each stats call and of each once-only warning are kept; stats calls are taken never to fail.
- Token estimation (`src/gate/tokens.py`): the estimate is an optional natural number given with the request.
- The wording of the 429 body.
- `CapacityCache.age`, `MetricsCache.by_model` and the plain getters: they would only add easy members.
- Poller cancellation: a poller that stops is a run in which its events no longer occur.
- Calls of `run_poller` with optional arguments missing: the app always wires them all.
- Generation.GenerationHandler.Exhaust: the sentinel backend label "none" is `None`, and the stats labels are kept as values rather than formatted text.
- Metrics.GaugeCapacityIsGreatest: truncation of the gauge value is exact, because gauge values are reals here.
