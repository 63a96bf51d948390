/**
 What every event keeps: the books of every backend, the link between each request and the charges it
 has in them, every handler's walk, the round-robin indices and the pollers' signals.
 */
module Invariants {
  import opened Wrappers
  import opened Router
  import opened Routing
  import opened Metrics
  import opened Backends
  import opened Polling
  import opened Walk
  import opened Registry
  import opened Gate

  // ----- the books -----

  ghost predicate Wired(su: Setup, s: State) {
    && ValidSetup(su)
    && (forall n <- su.names :: n in s.backends && n in s.ledgers && s.backends[n].settings == su.settings[n])
  }

  ghost predicate Books(su: Setup, s: State)
    requires Wired(su, s)
  {
    forall n <- su.names :: Accounted(s.backends[n], s.ledgers[n], s.now, su.staleAfter)
  }

  /** The backend whose counter may still carry a charge of this request. */
  function HoldingAt(h: Handler): Option<Name> {
    match h.phase
    case Proxying(probe, _, _) => Some(probe.name)
    case Done(response) => if response.Forwarded? then Some(response.backend) else None
    case Aborted(holding) => holding
    case _ => None
  }

  /** A charge in a backend's ledger is the one its request holds there, and a request at the proxy whose
      sequence is still current has its charge in the ledger if the counter is anchored. An unanchor
      does not move the sequence, but it empties the ledger, and the counter stays unanchored until a
      re-anchor moves the sequence: so a matching sequence on an anchored counter proves the charge is in it. */
  ghost predicate Linked(h: Handler, n: Name, b: Backend, l: Ledger, id: Id) {
    && (id in l.charges ==>
          && HoldingAt(h) == Some(n)
          && l.charges[id] == Charge(h.ctx, b.settings.auto.tokenMargin)
          && (h.phase.Proxying? ==> h.phase.charge == l.charges[id] && h.phase.seqBefore == b.anchorSeq))
    && (h.phase.Proxying? && h.phase.probe.name == n ==>
          && h.phase.seqBefore <= b.anchorSeq
          && (h.phase.seqBefore == b.anchorSeq && b.counter.Some? ==> id in l.charges))
  }

  ghost predicate LinkedAt(s: State, n: Name, id: Id)
    requires n in s.backends && n in s.ledgers
  {
    && (id in s.ledgers[n].charges ==> id in s.handlers)
    && (id in s.handlers ==> Linked(s.handlers[id], n, s.backends[n], s.ledgers[n], id))
  }

  ghost predicate Links(su: Setup, s: State)
    requires Wired(su, s)
  {
    forall n <- su.names, id: Id :: LinkedAt(s, n, id)
  }

  ghost predicate Balanced(su: Setup, s: State) {
    Wired(su, s) && Books(su, s) && Links(su, s)
  }

  /** Time passes. */
  lemma PassKeepsBalance(su: Setup, s: State, now: real)
    requires Balanced(su, s) && s.now <= now
    ensures Balanced(su, s.(now := now))
  {
    var t := s.(now := now);
    forall n <- su.names, id: Id ensures LinkedAt(t, n, id) {
      assert LinkedAt(s, n, id);
    }
  }

  /** A handler moves on without touching a counter. */
  lemma PutKeepsBalance(su: Setup, s: State, id: Id, h: Handler)
    requires Balanced(su, s) && !h.phase.Proxying?
    requires id !in s.handlers ==> HoldingAt(h).None?
    requires id in s.handlers ==>
               && HoldingAt(h) == HoldingAt(s.handlers[id])
               && (HoldingAt(h).Some? ==> h.ctx == s.handlers[id].ctx)
    ensures Balanced(su, s.(handlers := s.handlers[id := h]))
  {
    var t := s.(handlers := s.handlers[id := h]);
    forall n <- su.names, i: Id ensures LinkedAt(t, n, i) {
      assert LinkedAt(s, n, i);
    }
  }

  /** A handler stops at the proxy of a backend that admitted it, its charge placed. */
  lemma ChargeKeepsBalance(su: Setup, s: State, id: Id, h: Handler, now: real)
    requires Balanced(su, s) && s.now <= now
    requires id in s.handlers ==> HoldingAt(s.handlers[id]).None?
    requires h.phase.Proxying? && Judged(h, su.staleAfter, su.settings) && h.phase.probe.name in su.names
    requires h.phase.probe.seen == s.backends[h.phase.probe.name] && s.now <= h.phase.probe.at <= now
    ensures Balanced(su, Yield(s, id, h, now))
  {
    var n, at := h.phase.probe.name, h.phase.probe.at;
    var b, l := s.backends[n], s.ledgers[n];
    assert LinkedAt(s, n, id);
    AccountedLater(b, l, s.now, at, su.staleAfter);
    ChargeKeepsAccounts(b, l, id, h.ctx, at, now, su.staleAfter);
    PassKeepsBalance(su, s, now);
    ChargeKeepsLinks(su, s, id, h, now);
  }

  lemma ChargeKeepsLinks(su: Setup, s: State, id: Id, h: Handler, now: real)
    requires Wired(su, s) && Links(su, s)
    requires id in s.handlers ==> HoldingAt(s.handlers[id]).None?
    requires h.phase.Proxying? && h.phase.probe.name in su.names
             && h.phase.seqBefore == s.backends[h.phase.probe.name].anchorSeq
    requires h.phase.charge == Charge(h.ctx, s.backends[h.phase.probe.name].settings.auto.tokenMargin)
    ensures Wired(su, Yield(s, id, h, now)) && Links(su, Yield(s, id, h, now))
  {
    var t := Yield(s, id, h, now);
    forall m <- su.names, i: Id ensures LinkedAt(t, m, i) {
      assert LinkedAt(s, m, i);
    }
  }

  /** A failed request's charge is rolled back; other requests' charges are not touched. */
  lemma SettleKeepsBalance(su: Setup, s: State, id: Id, g: Handler)
    requires Balanced(su, s) && id in s.handlers && s.handlers[id].phase.Proxying?
    requires s.handlers[id].phase.probe.name in su.names
    requires !g.phase.Proxying? && HoldingAt(g).None?
    ensures Balanced(su, Settle(s, id, s.handlers[id], g))
  {
    var h := s.handlers[id];
    var n := h.phase.probe.name;
    var t := Settle(s, id, h, g);
    assert LinkedAt(s, n, id);
    RollbackKeepsAccounts(s.backends[n], s.ledgers[n], id, h.phase.charge, h.phase.seqBefore, s.now, su.staleAfter);
    forall m <- su.names, i: Id ensures LinkedAt(t, m, i) {
      assert LinkedAt(s, m, i);
    }
  }

  /** A poll re-anchors, unanchors or leaves one backend. */
  lemma PollKeepsBalance(su: Setup, s: State, t: State, name: Name, o: Poll, t1: real, t2: real, flags: Flags)
    requires Balanced(su, s) && name in su.names && s.now <= t1 <= t2 <= t.now && CoherentPoll(o)
    requires t.backends == s.backends[name := Refresh(s.backends[name], o, t1, t2).(flags := flags)]
    requires t.ledgers == s.ledgers[name := RefreshLedger(s.ledgers[name], s.backends[name], o)]
    requires t.handlers == s.handlers
    ensures Balanced(su, t)
  {
    RefreshKeepsAccounts(s.backends[name], s.ledgers[name], o, t1, t2, s.now, t.now, su.staleAfter);
    PassKeepsBalance(su, s, t.now);
    PollKeepsLinks(su, s, t, name, o, t1, t2, flags);
  }

  lemma PollKeepsLinks(su: Setup, s: State, t: State, name: Name, o: Poll, t1: real, t2: real, flags: Flags)
    requires Wired(su, s) && Links(su, s) && name in su.names
    requires t.backends == s.backends[name := Refresh(s.backends[name], o, t1, t2).(flags := flags)]
    requires t.ledgers == s.ledgers[name := RefreshLedger(s.ledgers[name], s.backends[name], o)]
    requires t.handlers == s.handlers
    ensures Wired(su, t) && Links(su, t)
  {
    RefreshMovesSequence(s.backends[name], s.ledgers[name], o, t1, t2);
    forall m <- su.names, i: Id ensures LinkedAt(t, m, i) {
      assert LinkedAt(s, m, i);
    }
  }
}
