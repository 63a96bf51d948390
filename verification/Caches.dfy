/**
 The mutable per-backend stores (src/gate/metrics.py): the last-known-good caches and the counter of
 remaining tokens. Each abstracts to the value the rest of the model reasons about.
 */
module Caches {
  import opened Wrappers
  import opened Numbers
  import opened Metrics
  import opened Backends
  import opened Polling

  class MetricsCache {
    var current: Option<real>
    var fetchedAt: Option<real>
    var perModel: map<string, real>

    ghost function Contents(): Feed
      reads this
    {
      Feed(current, fetchedAt, perModel)
    }

    constructor ()
      ensures Contents() == Feed(None, None, map[])
    {
      current, fetchedAt, perModel := None, None, map[];
    }

    /** Nothing to store keeps the last good value and its time. */
    method Update(value: Option<real>, now: real)
      modifies this
      ensures Contents() == if value.Some? then old(Contents()).(usage := value, fetchedAt := Some(now))
              else old(Contents())
    {
      if value.None? { return; }
      current, fetchedAt := value, Some(now);
    }

    method UpdateByModel(mapping: Option<map<string, real>>, now: real)
      modifies this
      ensures Contents() == if mapping.Some? && mapping.value != map[]
                            then Feed(Some(GreatestValue(mapping.value)), Some(now), mapping.value)
                            else old(Contents())
    {
      if mapping.None? || mapping.value == map[] { return; }
      var greatest := GreatestOf(mapping.value);
      GreatestIsUnique(mapping.value, greatest);
      perModel, current, fetchedAt := mapping.value, Some(greatest), Some(now);
    }

    function IsStale(staleAfter: real, now: real): (stale: bool)
      reads this
      ensures stale <==> fetchedAt.None? || now - fetchedAt.value > staleAfter
    {
      match Age(now)
      case None => true
      case Some(age) => age > staleAfter
    }

    function Age(now: real): Option<real>
      reads this
    {
      if fetchedAt.None? then None else Some(now - fetchedAt.value)
    }
  }

  /** The maximum over a mapping's values, in any order. */
  method GreatestOf(m: map<string, real>) returns (r: real)
    requires m != map[]
    ensures IsGreatestValue(m, r)
  {
    var first :| first in m;
    r := m[first];
    var keys := m.Keys - {first};
    while keys != {}
      invariant keys <= m.Keys
      invariant exists k <- m :: m[k] == r
      invariant forall k <- m | k !in keys :: m[k] <= r
      decreases |keys|
    {
      var k :| k in keys;
      if m[k] > r {
        r := m[k];
      }
      keys := keys - {k};
    }
  }

  class CapacityCache {
    var current: Option<nat>
    var fetchedAt: Option<real>

    constructor ()
      ensures current.None? && fetchedAt.None?
    {
      current, fetchedAt := None, None;
    }

    method Update(value: Option<nat>, now: real)
      modifies this
      ensures current == if value.Some? then value else old(current)
      ensures fetchedAt == if value.Some? then Some(now) else old(fetchedAt)
    {
      if value.None? { return; }
      current, fetchedAt := value, Some(now);
    }
  }

  /** The counter may go negative: an over-committed signal. */
  class KvRemaining {
    var tokens: Option<int>

    constructor ()
      ensures tokens.None?
    {
      tokens := None;
    }

    method Reanchor(anchor: int)
      modifies this
      ensures tokens == Some(anchor)
    {
      tokens := Some(anchor);
    }

    method Unanchor()
      modifies this
      ensures tokens.None?
    {
      tokens := None;
    }

    method Take(charge: int)
      modifies this
      ensures tokens == Subtract(old(tokens), charge)
    {
      if tokens.Some? {
        tokens := Some(tokens.value - charge);
      }
    }

    method GiveBack(charge: int)
      modifies this
      ensures tokens == Add(old(tokens), charge)
    {
      if tokens.Some? {
        tokens := Some(tokens.value + charge);
      }
    }
  }
}
