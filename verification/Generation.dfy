/**
 The request handler as the program runs it (`_handle_generation`, src/gate/app.py): an object whose
 methods run from one await to the next over the shared mutable state. Each method is proved against the
 pure step of the same name in `Walk` and `Gate`.
 */
module Generation {
  import opened Wrappers
  import opened Numbers
  import opened Router
  import opened Routing
  import opened Backends
  import opened Walk
  import opened Registry
  import opened Gate
  import opened Caches
  import opened States

  /** The backends after a handler yielded: its charge is placed if it stopped at the proxy. */
  function Yielded(backends: map<Name, Backend>, h: Handler): map<Name, Backend>
    requires h.phase.Proxying? ==> h.phase.probe.name in backends
  {
    if h.phase.Proxying?
    then backends[h.phase.probe.name := Charged(backends[h.phase.probe.name], h.phase.charge)]
    else backends
  }

  /** The backends after a failed request's charge was rolled back. */
  function SettledIn(backends: map<Name, Backend>, h: Handler): map<Name, Backend>
    requires h.phase.Proxying? && h.phase.probe.name in backends
  {
    var n := h.phase.probe.name;
    backends[n := RolledBack(backends[n], h.phase.charge, h.phase.seqBefore)]
  }

  /** Judging the next candidate either stops the walk there or takes it one reject further. */
  lemma RunWalkVisits(h: Handler, backends: map<Name, Backend>, clock: nat -> real, staleAfter: real, verdict: Verdict)
    requires h.candidates != [] && (forall c <- h.candidates :: c in backends) && |h.trail| < |h.candidates|
    requires var probe := ProbeAt(h, backends, clock, |h.trail|);
             verdict == Evaluate(probe.seen, h.ctx, probe.at, staleAfter)
    ensures var probe := ProbeAt(h, backends, clock, |h.trail|);
            RunWalk(h, backends, clock, staleAfter) ==
            if verdict.dec.allow then h.(phase := Proxying(probe, Charge(h.ctx, probe.seen.settings.auto.tokenMargin),
                probe.seen.anchorSeq))
            else RunWalk(Skip(h, probe, verdict), backends, clock, staleAfter)
  {
  }

  lemma RunWalkEnds(h: Handler, backends: map<Name, Backend>, clock: nat -> real, staleAfter: real)
    requires h.candidates != [] && (forall c <- h.candidates :: c in backends) && |h.trail| >= |h.candidates|
    ensures RunWalk(h, backends, clock, staleAfter) == Conclude(h)
    ensures !Conclude(h).phase.Proxying? || Conclude(h).phase == h.phase
  {
  }

  /** The handler about to walk, from the selected candidate. */
  function FirstTry(
      su: Setup, registry: Registry, backends: map<Name, Backend>, rr: map<Model, nat>, model: Model, ctx: Option<nat>,
          clock: nat -> real): Handler
    requires var r := ResolveCandidates(su, registry, model); forall c <- r.candidates :: c in backends
  {
    var r := ResolveCandidates(su, registry, model);
    var views := ViewsOf(r.candidates, backends, clock, su.staleAfter, |r.candidates|);
    BeginWalk(model, ctx, r.candidates, StartIndex(r, model, ctx, views, rr))
  }

  /** The usage views of the candidates, one clock reading each. */
  method LookAt(
      pool: Pool, candidates: seq<Name>, clock: nat -> real, staleAfter: real) returns (views: map<Name, CandidateView>)
    requires pool.Separate() && forall c <- candidates :: c in pool.states
    ensures views == ViewsOf(candidates, pool.Abstract(), clock, staleAfter, |candidates|)
  {
    views := map[];
    for i := 0 to |candidates|
      invariant views == ViewsOf(candidates, pool.Abstract(), clock, staleAfter, i)
    {
      var view := pool.states[candidates[i]].Look(clock(i), staleAfter);
      views := views[candidates[i] := view];
    }
  }

  /** The policy's choice, by the policy's own loop. */
  method Select(
      spec: RoutingSpec, candidates: seq<Name>, ctx: Option<nat>, views: map<Name, CandidateView>)
    returns (i: Option<nat>)
    ensures i == SelectBackend(spec, candidates, ctx, views)
  {
    if candidates == [] { return None; }
    match spec.policy
    case RoundRobin => i := Some(0);
    case PrimaryFallback => i := Some(0);
    case LargeSmall => i := Some(SelectLargeSmall(candidates, ctx, spec.thresholdTokens));
    case Even =>
      var least := ScanEven(candidates, ctx, views);
      i := Some(least);
    case Fill => i := ScanFill(candidates, ctx, views);
  }

  /** The selected candidate, rotated under round robin; `fill` without a fit starts from the first. */
  method ChooseStart(
      r: Resolution, model: Model, ctx: Option<nat>, views: map<Name, CandidateView>, routing: RoutingState)
    returns (start: nat)
    requires r.candidates != []
    ensures start == StartIndex(r, model, ctx, views, routing.rr)
  {
    var selected := Select(r.spec, r.candidates, ctx, views);
    start := selected.GetOr(0);
    if r.spec.policy == RoundRobin {
      start := (start + routing.Offset(model, |r.candidates|)) % |r.candidates|;
    }
  }

  class GenerationHandler {
    var model: Model
    var ctx: Option<nat>
    var candidates: seq<Name>
    var i0: nat
    var offset: nat
    var rejects: seq<Reject>
    var last5xx: Option<ServerAnswer>
    var name: Name
    var charge: int
    var seqBefore: nat
    var response: Option<Response>

    /** What the model keeps of the control point, the visits and the stats calls. */
    ghost var phase: Phase
    ghost var trail: seq<Visit>
    ghost var records: seq<Record>

    ghost function Abstract(): Handler
      reads this
    {
      Handler(phase, model, ctx, candidates, i0, rejects, last5xx, trail, records)
    }

    ghost predicate Valid()
      reads this
    {
      && offset == |trail|
      && (phase.Proxying? ==> phase.probe.name == name && phase.charge == charge && phase.seqBefore == seqBefore)
      && (phase.Done? || phase.ReleasingLast? ==> response == Some(phase.response))
      && (phase.Reading? || phase.Walking? || phase.Proxying? || phase.Releasing? ==> response.None?)
    }

    /** It ran on from `h` over `backends`, and left the pool as a handler that stops there does. */
    ghost predicate Ran(pool: Pool, h: Handler, backends: map<Name, Backend>, clock: nat -> real, staleAfter: real)
      requires pool.Separate() && h.candidates != [] && forall c <- h.candidates :: c in backends
      reads this, pool.footprint
    {
      && Abstract() == RunWalk(h, backends, clock, staleAfter)
      && (phase.Proxying? ==> phase.probe.name in backends)
      && pool.Abstract() == Yielded(backends, Abstract())
    }

    constructor ()
      ensures Valid() && Abstract() == NEW_HANDLER
    {
      model, ctx, candidates, i0, offset := "", None, [], 0, 0;
      rejects, last5xx, name, charge, seqBefore, response := [], None, "", 0, 0, None;
      phase, trail, records := Reading, [], [];
    }

    /** The handler's share of a reject: it is noted and the walk moves on. */
    method NoteReject(n: Name, verdict: Verdict, ghost probe: Probe)
      requires Valid() && phase.Walking? && candidates != [] && probe.name == n
      modifies this
      ensures Valid() && phase.Walking? && Abstract() == Skip(old(Abstract()), probe, verdict)
    {
      ghost var h := Abstract();
      rejects := rejects + [Reject(n, verdict)];
      records := WithFailover(h, offset, OnReject);
      trail := trail + [Visit(probe, Rejected(verdict))];
      offset := offset + 1;
    }

    /** The handler's share of an admission: it remembers its charge and awaits the proxy. */
    method AwaitProxy(n: Name, placed: int, before: nat, ghost probe: Probe)
      requires Valid() && phase.Walking? && probe.name == n
      modifies this
      ensures Valid() && Abstract() == old(Abstract()).(phase := Proxying(probe, placed, before)) && name == n
    {
      name, charge, seqBefore := n, placed, before;
      phase := Proxying(probe, placed, before);
    }

    /** The body was read: candidates are resolved, one of them is selected, and the walk begins from there. */
    method ReadBody(
        su: Setup, pool: Pool, registry: ModelRegistry, routing: RoutingState, requested: Model, size: Option<nat>,
        clock: nat -> real, ghost h: Handler)
      requires Valid() && phase.Reading? && pool.Separate() && this !in pool.footprint
      requires var r := ResolveCandidates(su, registry.Abstract(), requested);
               r.candidates != [] && forall c <- r.candidates :: c in pool.states
      requires h == FirstTry(su, registry.Abstract(), pool.Abstract(), routing.rr, requested, size, clock)
      modifies this, pool.footprint
      ensures Valid() && h.candidates != [] && (forall c <- h.candidates :: c in old(pool.Abstract()))
      ensures Ran(pool, h, old(pool.Abstract()), clock, su.staleAfter)
    {
      ghost var backends := pool.Abstract();
      Begin(su, pool, registry, routing, requested, size, clock, h);
      assert pool.Abstract() == backends;
      RunFrom(pool, h, backends, clock, su.staleAfter);
    }

    /** `WalkOn` from a known handler over known backends. */
    method RunFrom(
        pool: Pool, ghost h: Handler, ghost backends: map<Name, Backend>, clock: nat -> real, staleAfter: real)
      requires Valid() && phase.Walking? && Walks(pool) && Abstract() == h && pool.Abstract() == backends
      modifies this, pool.footprint
      ensures Valid() && h.candidates != [] && (forall c <- h.candidates :: c in backends)
      ensures pool.Separate() && Ran(pool, h, backends, clock, staleAfter)
    {
      WalkOn(pool, clock, staleAfter);
    }

    method Begin(
        su: Setup, pool: Pool, registry: ModelRegistry, routing: RoutingState, requested: Model, size: Option<nat>,
        clock: nat -> real, ghost h: Handler)
      requires Valid() && phase.Reading? && pool.Separate() && this !in pool.footprint
      requires var r := ResolveCandidates(su, registry.Abstract(), requested);
               r.candidates != [] && forall c <- r.candidates :: c in pool.states
      requires h == FirstTry(su, registry.Abstract(), pool.Abstract(), routing.rr, requested, size, clock)
      modifies this
      ensures Valid() && phase.Walking? && Walks(pool) && Abstract() == h
    {
      var route := Route(su, registry.ResolveCandidates(requested), requested);
      var views := LookAt(pool, route.candidates, clock, su.staleAfter);
      var start := ChooseStart(route, requested, size, views, routing);
      StartWalk(requested, size, route.candidates, start);
    }

    method StartWalk(requested: Model, size: Option<nat>, order: seq<Name>, start: nat)
      requires Valid() && phase.Reading?
      modifies this
      ensures Valid() && Abstract() == BeginWalk(requested, size, order, start)
    {
      model, ctx, candidates, i0 := requested, size, order, start;
      offset, rejects, last5xx := 0, [], None;
      phase, trail, records := Walking, [], [];
    }

    /** The walk's loop, from the current candidate to the next await or the end. */
    method WalkOn(pool: Pool, clock: nat -> real, staleAfter: real)
      requires Valid() && phase.Walking? && Walks(pool)
      modifies this, pool.footprint
      ensures Valid() && Walks(pool)
      ensures Ran(pool, old(Abstract()), old(pool.Abstract()), clock, staleAfter)
    {
      ghost var end, backends := RunWalk(Abstract(), pool.Abstract(), clock, staleAfter), pool.Abstract();
      while offset < |candidates|
        invariant Valid() && phase.Walking? && Walks(pool)
        invariant pool.Abstract() == backends
        invariant end == RunWalk(Abstract(), backends, clock, staleAfter)
        decreases |candidates| - offset
      {
        var admitted := Proceed(pool, clock, staleAfter);
        if admitted { return; }
      }
      RunWalkEnds(Abstract(), backends, clock, staleAfter);
      Exhaust();
    }

    /** One round of the loop. */
    method Proceed(pool: Pool, clock: nat -> real, staleAfter: real) returns (admitted: bool)
      requires Valid() && phase.Walking? && Walks(pool) && offset < |candidates|
      modifies this, pool.footprint
      ensures Valid() && Walks(pool) && candidates == old(candidates)
      ensures RunWalk(old(Abstract()), old(pool.Abstract()), clock, staleAfter) ==
              if admitted then Abstract() else RunWalk(Abstract(), old(pool.Abstract()), clock, staleAfter)
      ensures if admitted then phase.Proxying? && name in pool.states
              && pool.Abstract() == Yielded(old(pool.Abstract()), Abstract())
              else phase.Walking? && offset == old(offset) + 1 && pool.Abstract() == old(pool.Abstract())
    {
      ghost var h, backends := Abstract(), pool.Abstract();
      var verdict, _ := TryNext(pool, clock(|candidates| + offset), staleAfter);
      RunWalkVisits(h, backends, clock, staleAfter, verdict);
      admitted := verdict.dec.allow;
    }

    /** The candidates stand for separate backends of the pool. */
    ghost predicate Walks(pool: Pool)
      reads this
    {
      pool.Separate() && this !in pool.footprint && candidates != [] && forall c <- candidates :: c in pool.states
    }

    /** Judges the candidate at `offset`: it is charged, or its reject is noted. */
    method TryNext(pool: Pool, at: real, staleAfter: real) returns (verdict: Verdict, ghost probe: Probe)
      requires Valid() && phase.Walking? && Walks(pool) && offset < |candidates|
      modifies this, pool.footprint
      ensures Valid() && Walks(pool)
      ensures if verdict.dec.allow then phase.Proxying? && name in pool.states else phase.Walking?
      ensures probe.name == old(CandidateAt(Abstract(), offset)) && probe.name in pool.states
      ensures probe == Probe(probe.name, old(pool.Abstract())[probe.name], at)
      ensures verdict == Evaluate(probe.seen, old(ctx), at, staleAfter)
      ensures Abstract() == if verdict.dec.allow
                            then old(Abstract()).(phase := Proxying(probe,
                                Charge(old(ctx), probe.seen.settings.auto.tokenMargin), probe.seen.anchorSeq))
                            else Skip(old(Abstract()), probe, verdict)
      ensures pool.Abstract() == Yielded(old(pool.Abstract()), Abstract())
    {
      var n := candidates[(i0 + offset) % |candidates|];
      probe := Probe(n, pool.Abstract()[n], at);
      verdict := pool.states[n].Judge(ctx, at, staleAfter);
      if verdict.dec.allow {
        Place(pool, n, probe);
      } else {
        NoteReject(n, verdict, probe);
      }
    }

    /** The charge is placed on the admitting backend, and the proxy awaited. */
    method Place(pool: Pool, n: Name, ghost probe: Probe)
      requires Valid() && phase.Walking? && Walks(pool)
      requires n in pool.states && probe.name == n && probe.seen == pool.Abstract()[n]
      modifies this, pool.footprint
      ensures Valid() && Walks(pool) && name == n
      ensures Abstract() == old(Abstract()).(phase := Proxying(probe,
              Charge(old(ctx), probe.seen.settings.auto.tokenMargin), probe.seen.anchorSeq))
      ensures pool.Abstract() == Yielded(old(pool.Abstract()), Abstract())
    {
      var placed, before := pool.Admit(n, ctx);
      AwaitProxy(n, placed, before, probe);
    }

    /** Every candidate was visited. */
    method Exhaust()
      requires Valid() && phase.Walking?
      modifies this
      ensures Valid() && Abstract() == Conclude(old(Abstract()))
    {
      if rejects != [] {
        var retry, rejector := WorstReject(rejects);
        records := records + RejectionRecords(rejector);
        response := Some(TooManyRequests(retry, rejector));
        phase := if last5xx.Some? then ReleasingLast(response.value) else Done(response.value);
      } else if last5xx.Some? {
        records := records + [RecordForwarded(last5xx.value.backend)];
        response := Some(Propagated(last5xx.value.status, last5xx.value.backend));
        phase := Done(response.value);
      } else {
        records := records + [RecordRejected(None), RecordRejection(None, AllBackendsFailed, 0.0)];
        response := Some(BadGateway);
        phase := Done(BadGateway);
      }
    }

    /** The handler's share of an answer. */
    method NoteAnswer(u: Upstream)
      requires Valid() && phase.Proxying? && candidates != []
      modifies this
      ensures Valid() && Abstract() == Receive(old(Abstract()), u) && candidates == old(candidates)
    {
      ghost var h, probe := Abstract(), phase.probe;
      trail := trail + [Visit(probe, AnswerOf(u))];
      if u.Unreachable? {
        records := WithFailover(h, offset, OnTransport);
        phase := Walking;
      } else if u.status >= 500 {
        if offset + 1 < |candidates| {
          phase := Releasing;
        } else {
          last5xx := Some(ServerAnswer(u.status, name));
          phase := Walking;
        }
      } else {
        records := records + [RecordForwarded(name)];
        response := Some(Forwarded(u.status, name));
        phase := Done(response.value);
      }
      offset := offset + 1;
    }

    /** The backend served the request: the round-robin index advances. */
    method Served(routing: RoutingState, status: int)
      requires Valid() && phase.Proxying? && candidates != [] && status < 500
      modifies this, routing
      ensures Valid() && Abstract() == Receive(old(Abstract()), Responded(status))
      ensures routing.rr == RrAdvance(old(routing.rr), old(model), |old(candidates)|)
    {
      routing.Advance(model, |candidates|);
      NoteAnswer(Responded(status));
    }

    /** The proxied request failed: its charge is rolled back and, unless a discarded response must be
        released first, the walk goes on. */
    method Failed(pool: Pool, u: Upstream, clock: nat -> real, staleAfter: real)
      requires Valid() && phase.Proxying? && Walks(pool) && name in pool.states && Fails(u)
      modifies this, pool.footprint
      ensures Valid()
      ensures var g, settled := Receive(old(Abstract()), u), SettledIn(old(pool.Abstract()), old(Abstract()));
              && g.candidates == old(candidates)
              && (if g.phase.Walking? then Ran(pool, g, settled, clock, staleAfter)
                  else Abstract() == g && pool.Abstract() == settled)
    {
      var walking := Settle(pool, u);
      if walking {
        WalkOn(pool, clock, staleAfter);
      }
    }

    method Settle(pool: Pool, u: Upstream) returns (walking: bool)
      requires Valid() && phase.Proxying? && Walks(pool) && name in pool.states && Fails(u)
      modifies this, pool.footprint
      ensures Valid() && Walks(pool) && walking == phase.Walking? && !phase.Proxying?
      ensures Abstract() == Receive(old(Abstract()), u)
      ensures pool.Abstract() == SettledIn(old(pool.Abstract()), old(Abstract()))
    {
      pool.RollBack(name, charge, seqBefore);
      walking := u.Unreachable? || offset + 1 >= |candidates|;
      NoteAnswer(u);
    }

    /** The discarded response was released. */
    method Released(pool: Pool, clock: nat -> real, staleAfter: real)
      requires Valid() && Walks(pool) && (phase.ReleasingLast? || (phase.Releasing? && offset > 0))
      modifies this, pool.footprint
      ensures Valid()
      ensures var g := Release(old(Abstract()));
              && g.candidates == old(candidates)
              && (if g.phase.Walking? then Ran(pool, g, old(pool.Abstract()), clock, staleAfter)
                  else Abstract() == g && pool.Abstract() == old(pool.Abstract()))
    {
      ghost var backends := pool.Abstract();
      var answered := response.Some?;
      NoteRelease();
      assert pool.Abstract() == backends;
      if !answered {
        RunFrom(pool, Abstract(), backends, clock, staleAfter);
      }
    }

    /** The handler's share of a release. */
    method NoteRelease()
      requires Valid() && candidates != [] && (phase.ReleasingLast? || (phase.Releasing? && offset > 0))
      modifies this
      ensures Valid() && Abstract() == Release(old(Abstract())) && candidates == old(candidates)
      ensures if old(response).Some? then phase.Done? else phase.Walking?
    {
      if response.Some? {
        phase := Done(response.value);
      } else {
        records := WithFailover(Abstract(), offset - 1, OnServerError);
        phase := Walking;
      }
    }

    /** Any other exception: nothing the request did is undone. */
    method Fail()
      requires Valid() && Waiting(Abstract())
      modifies this
      ensures Valid() && Abstract() == Abort(old(Abstract()))
    {
      phase := Aborted(if phase.Proxying? then Some(name) else None);
    }
  }

  /** The greatest wait over the rejects, and the first reject that asks for it. */
  method WorstReject(rejects: seq<Reject>) returns (retry: int, rejector: Reject)
    requires rejects != []
    ensures retry == MaxRetry(rejects) && rejector == FirstAsking(rejects, retry).GetOr(rejects[0])
  {
    retry := RetryOf(rejects[0].verdict);
    for i := 1 to |rejects|
      invariant retry == MaxRetry(rejects[..i])
    {
      assert rejects[..i + 1][..i] == rejects[..i];
      retry := Max(retry, RetryOf(rejects[i].verdict));
    }
    assert rejects[..|rejects|] == rejects;
    for i := 0 to |rejects|
      invariant FirstAsking(rejects[..i], retry).None?
    {
      assert rejects[..i + 1][..i] == rejects[..i];
      if RetryOf(rejects[i].verdict) == retry {
        FirstAskingStays(rejects, retry, i + 1);
        return retry, rejects[i];
      }
    }
    rejector := rejects[0];
  }

  lemma {:induction false} FirstAskingStays(rejects: seq<Reject>, retry: int, k: nat)
    requires k <= |rejects| && FirstAsking(rejects[..k], retry).Some?
    ensures FirstAsking(rejects, retry) == FirstAsking(rejects[..k], retry)
    decreases |rejects|
  {
    if k < |rejects| {
      assert rejects[..|rejects| - 1][..k] == rejects[..k];
      FirstAskingStays(rejects[..|rejects| - 1], retry, k);
    } else {
      assert rejects[..k] == rejects;
    }
  }
}
