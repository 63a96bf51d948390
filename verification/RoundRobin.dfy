/**
 Round-robin fairness: what the stored index means under any interleaving, and how the turns of
 sequential requests are shared out (`RoutingState.offset` and `advance`, src/gate/app.py).
 */
module RoundRobinTurns {
  import opened Wrappers
  import opened Numbers
  import opened Router
  import opened Routing
  import opened Backends
  import opened Walk
  import opened Gate
  import opened Runs
  import opened Guarantees
  import opened Snapshot

  /** With a fixed candidate count a model's stored index is the number of its successful forwards modulo
      that count, however the requests interleaved. */
  lemma RoundRobinCountsForwards(su: Setup, s: State, model: Model, n: nat)
    requires Reachable(su, s) && n > 0
    requires forall k | 0 <= k < |ForwardsOf(s, model)| :: ForwardsOf(s, model)[k] == n
    ensures RrAt(s.rr, model) == |ForwardsOf(s, model)| % n
    ensures RrOffset(s.rr, model, n) == |ForwardsOf(s, model)| % n
  {
    ReachableInv(su, s);
    var counts := ForwardsOf(s, model);
    assert RrAt(s.rr, model) == RrIndex(counts);
    UniformIndex(counts, n);
    UniqueRemainder(|counts| % n, 0, |counts| % n, n);
  }

  lemma {:induction false} UniformIndex(counts: seq<nat>, n: nat)
    requires n > 0 && forall k | 0 <= k < |counts| :: counts[k] == n
    ensures RrIndex(counts) == |counts| % n
  {
    if counts == [] {
      UniqueRemainder(0, 0, 0, n);
    } else {
      var init := counts[..|counts| - 1];
      UniformIndex(init, n);
      NextModulo(|init|, n);
      assert counts[|counts| - 1] == n;
    }
  }

  lemma NextModulo(k: nat, n: nat)
    requires n > 0
    ensures RrNext(k % n, n) == (k + 1) % n
  {
    var q, r := k / n, k % n;
    if r + 1 < n {
      UniqueRemainder(k + 1, q, r + 1, n);
      UniqueRemainder(r + 1, 0, r + 1, n);
    } else {
      assert (q + 1) * n == q * n + n;
      UniqueRemainder(k + 1, q + 1, 0, n);
      UniqueRemainder(n, 1, 0, n);
    }
  }

  // ----- sequential requests -----

  /** The indices after `k` forwards of one model with `n` candidates. */
  function RrAfter(rr: map<Model, nat>, model: Model, n: nat, k: nat): map<Model, nat> {
    if k == 0 then rr else RrAdvance(RrAfter(rr, model, n, k - 1), model, n)
  }

  /** The turns are taken in order from the first one, whatever index an earlier candidate count left. */
  lemma {:induction false} TurnIsNext(rr: map<Model, nat>, model: Model, n: nat, k: nat)
    requires n > 0
    ensures RrOffset(RrAfter(rr, model, n, k), model, n) == (RrAt(rr, model) + k) % n < n
  {
    if k == 0 {
    } else {
      TurnIsNext(rr, model, n, k - 1);
      var index := RrAt(RrAfter(rr, model, n, k - 1), model);
      assert RrAt(RrAfter(rr, model, n, k), model) == (index + 1) % n;
      ModuloModulo(index + 1, n);
      SuccessorModulo(index, RrAt(rr, model) + k - 1, n);
    }
  }

  lemma SuccessorModulo(j: nat, k: nat, n: nat)
    requires n > 0 && j % n == k % n
    ensures (j + 1) % n == (k + 1) % n
  {
    SuccessorRemainder(j, n);
    SuccessorRemainder(k, n);
  }

  lemma SuccessorRemainder(k: nat, n: nat)
    requires n > 0
    ensures (k + 1) % n == if k % n + 1 < n then k % n + 1 else 0
  {
    var q, r := k / n, k % n;
    if r + 1 < n {
      UniqueRemainder(k + 1, q, r + 1, n);
    } else {
      assert (q + 1) * n == q * n + n;
      UniqueRemainder(k + 1, q + 1, 0, n);
    }
  }

  /** A walk whose first candidate serves is served by it. */
  lemma FirstCandidateServes(model: Model, ctx: Option<nat>, candidates: seq<Name>, i: nat, w: World)
    requires Covers(w, candidates) && i < |candidates| && AnswerFrom(w, ctx, candidates[i]).Served?
    ensures WalkFrom(model, ctx, candidates, i, w).0.phase ==
            Done(Forwarded(AnswerFrom(w, ctx, candidates[i]).status, candidates[i]))
  {
    var (g, after) := WalkFrom(model, ctx, candidates, i, w);
    WalkFromPlays(model, ctx, candidates, i, w);
    SnapshotDecides(BeginWalk(model, ctx, candidates, i), w, g, after);
    PlaysServed(BeginWalk(model, ctx, candidates, i), w, g, after);
    FirstServesAtOnce(g, w);
  }

  /** Of sequential requests whose first attempt always forwards, the `k`-th goes to candidate `(s + k) % n`,
      where `s` is the index the first one found. */
  lemma KthRequestTakesItsTurn(
      r: Resolution, model: Model, ctx: Option<nat>, views: map<Name, CandidateView>, rr: map<Model, nat>, k: nat,
          w: World)
    requires r.spec.policy == RoundRobin && Covers(w, r.candidates)
    requires AnswerFrom(w, ctx, TurnOf(r.candidates, RrAt(rr, model) + k)).Served?
    ensures var c := TurnOf(r.candidates, RrAt(rr, model) + k);
            var g := WalkUnder(r, model, ctx, views, RrAfter(rr, model, |r.candidates|, k), w).0;
            g.phase == Done(Forwarded(AnswerFrom(w, ctx, c).status, c))
  {
    var turn := RrAt(rr, model) + k;
    StartsAtTurn(r, model, ctx, views, rr, k);
    FirstCandidateServes(model, ctx, r.candidates, turn % |r.candidates|, w);
  }

  lemma StartsAtTurn(
      r: Resolution, model: Model, ctx: Option<nat>, views: map<Name, CandidateView>, rr: map<Model, nat>, k: nat)
    requires r.candidates != [] && r.spec.policy == RoundRobin
    ensures StartIndex(r, model, ctx, views, RrAfter(rr, model, |r.candidates|, k)) ==
            (RrAt(rr, model) + k) % |r.candidates|
  {
    TurnIsNext(rr, model, |r.candidates|, k);
    ModuloModulo(RrAt(rr, model) + k, |r.candidates|);
  }

  function TurnOf(candidates: seq<Name>, turn: nat): (c: Name)
    requires candidates != []
    ensures c in candidates
  {
    candidates[turn % |candidates|]
  }

  /** How many of the first `k` turns from `s` are candidate `c`'s. */
  function Turns(s: nat, n: nat, c: nat, k: nat): nat
    requires n > 0
  {
    if k == 0 then 0 else Turns(s, n, c, k - 1) + (if (s + k - 1) % n == c then 1 else 0)
  }

  /** Where candidate `c` stands in a round that begins with turn `s`. */
  function Seat(s: nat, n: nat, c: nat): nat
    requires c < n
  {
    if c >= s % n then c - s % n else c - s % n + n
  }

  /** Each candidate has one turn in every full round, and one more once its seat has come up again. */
  lemma {:induction false} TurnsByRound(s: nat, n: nat, c: nat, k: nat)
    requires c < n
    ensures Turns(s, n, c, k) == k / n + (if Seat(s, n, c) < k % n then 1 else 0)
  {
    if k == 0 {
      UniqueRemainder(0, 0, 0, n);
    } else {
      TurnsByRound(s, n, c, k - 1);
      NextRound(k - 1, n);
      SeatOfTurn(s, n, c, k - 1);
    }
  }

  lemma NextRound(k: nat, n: nat)
    requires n > 0
    ensures if k % n + 1 < n then (k + 1) / n == k / n && (k + 1) % n == k % n + 1
            else (k + 1) / n == k / n + 1 && (k + 1) % n == 0
  {
    SuccessorRemainder(k, n);
    var d := (k + 1) / n - k / n;
    assert d * n == 1 + k % n - (k + 1) % n;
    if d < 0 {
      Multiple(-d, n);
    } else if d > 1 {
      Multiple(d - 1, n);
    }
  }

  lemma SeatOfTurn(s: nat, n: nat, c: nat, k: nat)
    requires c < n
    ensures (s + k) % n == c <==> Seat(s, n, c) == k % n
  {
    SumRemainder(s, k, n);
  }

  lemma SumRemainder(s: nat, k: nat, n: nat)
    requires n > 0
    ensures (s + k) % n == if s % n + k % n < n then s % n + k % n else s % n + k % n - n
  {
    AddDivided(s, k, n, s / n, k / n, s % n + k % n);
  }

  lemma AddDivided(s: nat, k: nat, n: nat, p: nat, q: nat, r: nat)
    requires n > 0 && s + k == p * n + q * n + r && r < n + n
    ensures (s + k) % n == if r < n then r else r - n
  {
    assert (p + q) * n == p * n + q * n;
    if r < n {
      UniqueRemainder(s + k, p + q, r, n);
    } else {
      assert (p + q + 1) * n == (p + q) * n + n;
      UniqueRemainder(s + k, p + q + 1, r - n, n);
    }
  }

  /** After any number of turns no candidate is more than one ahead of another. */
  lemma TurnsAreFair(s: nat, n: nat, c: nat, d: nat, k: nat)
    requires c < n && d < n
    ensures -1 <= Turns(s, n, c, k) - Turns(s, n, d, k) <= 1
  {
    TurnsByRound(s, n, c, k);
    TurnsByRound(s, n, d, k);
  }

  // ----- a play of sequential requests -----

  /** One of several requests for a model, each finding the backends in its own state. */
  datatype Request = Request(ctx: Option<nat>, views: map<Name, CandidateView>, world: World)

  /** The indices and how the requests ended, in turn. */
  datatype Played = Played(rr: map<Model, nat>, ends: seq<Handler>)

  ghost predicate Playable(candidates: seq<Name>, requests: seq<Request>) {
    candidates != [] && Distinct(candidates) && forall q <- requests :: Covers(q.world, candidates)
  }

  /** The requests one after another: each walks under the indices its predecessors left, and a forward
      advances them. */
  ghost function Play(r: Resolution, model: Model, rr: map<Model, nat>, requests: seq<Request>): Played
    requires Playable(r.candidates, requests)
  {
    if requests == [] then Played(rr, [])
    else
      var n := |requests| - 1;
      var before, q := Play(r, model, rr, requests[..n]), requests[n];
      var end := WalkUnder(r, model, q.ctx, q.views, before.rr, q.world).0;
      Played(Advanced(before.rr, end), before.ends + [end])
  }

  /** The candidate a request tries first serves it. */
  ghost predicate FirstServes(r: Resolution, model: Model, rr: map<Model, nat>, q: Request)
    requires Covers(q.world, r.candidates)
  {
    var i := StartIndex(r, model, q.ctx, q.views, rr);
    i < |r.candidates| && AnswerFrom(q.world, q.ctx, r.candidates[i]).Served?
  }

  /** So it is for every request of a play, under the indices it found. */
  ghost predicate FirstAttemptsServe(r: Resolution, model: Model, rr: map<Model, nat>, requests: seq<Request>)
    requires Playable(r.candidates, requests)
  {
    requests == [] ||
    var n := |requests| - 1;
    FirstAttemptsServe(r, model, rr, requests[..n]) && FirstServes(r, model, Play(r, model, rr, requests[..n]).rr,
        requests[n])
  }

  predicate ForwardedBy(end: Handler, c: Name) {
    end.phase.Done? && end.phase.response.Forwarded? && end.phase.response.backend == c
  }

  /** How many of the requests `c` served. */
  function ServedBy(ends: seq<Handler>, c: Name): nat {
    if ends == [] then 0
    else ServedBy(ends[..|ends| - 1], c) + (if ForwardedBy(ends[|ends| - 1], c) then 1 else 0)
  }

  /** A request whose first attempt serves after `k` forwards takes turn `s + k` and moves the indices on. */
  lemma ServesInTurn(r: Resolution, model: Model, rr: map<Model, nat>, q: Request, k: nat)
    requires r.spec.policy == RoundRobin && Covers(q.world, r.candidates)
    requires FirstServes(r, model, RrAfter(rr, model, |r.candidates|, k), q)
    ensures var end := WalkUnder(r, model, q.ctx, q.views, RrAfter(rr, model, |r.candidates|, k), q.world).0;
            && ForwardedBy(end, TurnOf(r.candidates, RrAt(rr, model) + k))
            && Advanced(RrAfter(rr, model, |r.candidates|, k), end) == RrAfter(rr, model, |r.candidates|, k + 1)
  {
    StartsAtTurn(r, model, q.ctx, q.views, rr, k);
    KthRequestTakesItsTurn(r, model, q.ctx, q.views, rr, k, q.world);
    WalkFromPlays(model, q.ctx, r.candidates, (RrAt(rr, model) + k) % |r.candidates|, q.world);
  }

  /** The `k`-th request was served by candidate `(s + k) % n`. */
  ghost predicate InTurn(candidates: seq<Name>, s: nat, ends: seq<Handler>)
    requires candidates != []
  {
    forall k | 0 <= k < |ends| :: ForwardedBy(ends[k], TurnOf(candidates, s + k))
  }

  lemma OneMoreInTurn(candidates: seq<Name>, s: nat, ends: seq<Handler>, end: Handler)
    requires candidates != [] && InTurn(candidates, s, ends) && ForwardedBy(end, TurnOf(candidates, s + |ends|))
    ensures InTurn(candidates, s, ends + [end])
  {
  }

  /** What a play whose first attempts all serve leads to. */
  ghost predicate TookTurns(r: Resolution, model: Model, rr: map<Model, nat>, k: nat, p: Played)
    requires r.candidates != []
  {
    && p.rr == RrAfter(rr, model, |r.candidates|, k)
    && |p.ends| == k && InTurn(r.candidates, RrAt(rr, model), p.ends)
  }

  lemma TurnTaken(r: Resolution, model: Model, rr: map<Model, nat>, before: Played, q: Request, k: nat)
    requires r.spec.policy == RoundRobin && Covers(q.world, r.candidates)
    requires TookTurns(r, model, rr, k, before) && FirstServes(r, model, before.rr, q)
    ensures var end := WalkUnder(r, model, q.ctx, q.views, before.rr, q.world).0;
            TookTurns(r, model, rr, k + 1, Played(Advanced(before.rr, end), before.ends + [end]))
  {
    ServesInTurn(r, model, rr, q, k);
    OneMoreInTurn(r.candidates, RrAt(rr, model), before.ends,
        WalkUnder(r, model, q.ctx, q.views, before.rr, q.world).0);
  }

  /** After a play whose first attempts all serve, the indices are those of as many forwards, and every
      request was served in turn. */
  lemma {:induction false} PlayTakesTurns(r: Resolution, model: Model, rr: map<Model, nat>, requests: seq<Request>)
    requires r.spec.policy == RoundRobin && Playable(r.candidates, requests)
             && FirstAttemptsServe(r, model, rr, requests)
    ensures TookTurns(r, model, rr, |requests|, Play(r, model, rr, requests))
  {
    if requests == [] {
    } else {
      var n := |requests| - 1;
      PlayTakesTurns(r, model, rr, requests[..n]);
      TurnTaken(r, model, rr, Play(r, model, rr, requests[..n]), requests[n], n);
    }
  }

  /** The requests a candidate served are the turns that were its own. */
  lemma {:induction false} ServedByItsTurns(candidates: seq<Name>, ends: seq<Handler>, s: nat, c: nat)
    requires Distinct(candidates) && c < |candidates| && InTurn(candidates, s, ends)
    ensures ServedBy(ends, candidates[c]) == Turns(s, |candidates|, c, |ends|)
  {
    if ends == [] {
    } else {
      var n := |ends| - 1;
      ServedByItsTurns(candidates, ends[..n], s, c);
      OwnTurn(candidates, s + n, c);
    }
  }

  lemma OwnTurn(candidates: seq<Name>, turn: nat, c: nat)
    requires Distinct(candidates) && c < |candidates|
    ensures TurnOf(candidates, turn) == candidates[c] <==> turn % |candidates| == c
  {
    var t := turn % |candidates|;
    if t < c {
      assert candidates[t] != candidates[c];
    } else if c < t {
      assert candidates[c] != candidates[t];
    }
  }

  lemma FairWhenInTurn(candidates: seq<Name>, s: nat, ends: seq<Handler>, c: nat, d: nat)
    requires Distinct(candidates) && c < |candidates| && d < |candidates| && InTurn(candidates, s, ends)
    ensures ServedBy(ends, candidates[c]) == Turns(s, |candidates|, c, |ends|)
    ensures -1 <= ServedBy(ends, candidates[c]) - ServedBy(ends, candidates[d]) <= 1
  {
    ServedByItsTurns(candidates, ends, s, c);
    ServedByItsTurns(candidates, ends, s, d);
    TurnsAreFair(s, |candidates|, c, d, |ends|);
  }

  /** Fairness: of sequential requests whose first attempts serve, each candidate serves its own turns, and
      no candidate is ever more than one request ahead of another. */
  lemma SequentialFairness(r: Resolution, model: Model, rr: map<Model, nat>, requests: seq<Request>, c: nat, d: nat)
    requires r.spec.policy == RoundRobin && Playable(r.candidates, requests)
             && FirstAttemptsServe(r, model, rr, requests)
    requires c < |r.candidates| && d < |r.candidates|
    ensures var ends := Play(r, model, rr, requests).ends;
            && |ends| == |requests|
            && ServedBy(ends, r.candidates[c]) == Turns(RrAt(rr, model), |r.candidates|, c, |requests|)
            && -1 <= ServedBy(ends, r.candidates[c]) - ServedBy(ends, r.candidates[d]) <= 1
  {
    PlayTakesTurns(r, model, rr, requests);
    FairWhenInTurn(r.candidates, RrAt(rr, model), Play(r, model, rr, requests).ends, c, d);
  }
}
