/**
 Which backends serve which models (src/gate/models.py). Backends are registered once, in config
 order; each sync replaces one backend's owned set.
 */
module Registry {
  import opened Wrappers
  import opened Routing

  datatype Registry = Registry(owned: map<Name, set<Model>>, defaults: map<Name, bool>, order: seq<Name>)

  const EMPTY_REGISTRY := Registry(map[], map[], [])

  function OwnedBy(r: Registry, name: Name): set<Model> {
    if name in r.owned then r.owned[name] else {}
  }

  function Register(r: Registry, name: Name, isDefault: bool): Registry {
    Registry(r.owned[name := OwnedBy(r, name)], r.defaults[name := isDefault], r.order + [name])
  }

  function Synced(r: Registry, name: Name, models: set<Model>): Registry {
    r.(owned := r.owned[name := models])
  }

  /** The backends among `order` that own `model`, in that order. */
  function Owners(r: Registry, model: Model, order: seq<Name>): seq<Name> {
    if order == [] then []
    else
      var last := order[|order| - 1];
      Owners(r, model, order[..|order| - 1]) + (if model in OwnedBy(r, last) then [last] else [])
  }

  function Candidates(r: Registry, model: Model): seq<Name> {
    Owners(r, model, r.order)
  }

  predicate IsDefault(r: Registry, name: Name) {
    name in r.defaults && r.defaults[name]
  }

  /** The first default among the owners, if any. */
  function FirstDefault(r: Registry, owners: seq<Name>): Option<Name> {
    if owners == [] then None
    else if IsDefault(r, owners[0]) then Some(owners[0])
    else FirstDefault(r, owners[1..])
  }

  /** The collision policy. */
  function Winner(r: Registry, owners: seq<Name>): Name
    requires owners != []
  {
    if |owners| == 1 then owners[0] else FirstDefault(r, owners).GetOr(owners[0])
  }

  function Resolved(r: Registry, model: Model): Option<Name> {
    var owners := Candidates(r, model);
    if owners == [] then None else Some(Winner(r, owners))
  }

  lemma {:induction false} OwnersMeans(r: Registry, model: Model, order: seq<Name>)
    ensures forall b :: b in Owners(r, model, order) <==> b in order && model in OwnedBy(r, b)
    ensures Distinct(order) ==> Distinct(Owners(r, model, order))
  {
    if order == [] {
    } else {
      OwnersMeans(r, model, order[..|order| - 1]);
      assert order == order[..|order| - 1] + [order[|order| - 1]];
    }
  }

  lemma {:induction false} FirstDefaultMeans(r: Registry, owners: seq<Name>)
    ensures match FirstDefault(r, owners)
            case Some(b) => b in owners && IsDefault(r, b)
            case None => forall b <- owners :: !IsDefault(r, b)
  {
    if owners == [] {
    } else {
      FirstDefaultMeans(r, owners[1..]);
      assert owners == [owners[0]] + owners[1..];
    }
  }

  /** A model resolves iff some registered backend owns it, to one of its owners, and to a default
      backend whenever a default backend owns it. */
  lemma ResolvedIsOwner(r: Registry, model: Model)
    ensures Resolved(r, model).None? <==> forall b <- r.order :: model !in OwnedBy(r, b)
    ensures Resolved(r, model).Some? ==> Resolved(r, model).value in Candidates(r, model)
    ensures (exists b <- r.order :: model in OwnedBy(r, b) && IsDefault(r, b)) ==>
              Resolved(r, model).Some? && IsDefault(r, Resolved(r, model).value)
  {
    var owners := Candidates(r, model);
    OwnersMeans(r, model, r.order);
    if owners != [] {
      FirstDefaultMeans(r, owners);
      assert owners[0] in owners;
    }
    if b :| b in r.order && model in OwnedBy(r, b) && IsDefault(r, b) {
      assert b in owners;
    }
  }

  // ----- any interleaving of syncs -----

  datatype SyncCall = SyncCall(name: Name, models: set<Model>)

  function Play(r: Registry, calls: seq<SyncCall>): Registry {
    if calls == [] then r
    else
      var c := calls[|calls| - 1];
      Synced(Play(r, calls[..|calls| - 1]), c.name, c.models)
  }

  /** What `name` last synced, or what it owned to begin with. */
  function LastSynced(r: Registry, calls: seq<SyncCall>, name: Name): set<Model> {
    if calls == [] then OwnedBy(r, name)
    else if calls[|calls| - 1].name == name then calls[|calls| - 1].models
    else LastSynced(r, calls[..|calls| - 1], name)
  }

  function Filter(order: seq<Name>, keep: Name -> bool): seq<Name> {
    if order == [] then []
    else
      var last := order[|order| - 1];
      Filter(order[..|order| - 1], keep) + (if keep(last) then [last] else [])
  }

  /** After any interleaving of syncs the candidates of a model are the registration order filtered by
      each backend's last synced set. */
  lemma {:induction false} CandidatesFollowLastSync(r: Registry, calls: seq<SyncCall>, model: Model)
    ensures Candidates(Play(r, calls), model) == Filter(r.order, b => model in LastSynced(r, calls, b))
  {
    PlayKeepsOrder(r, calls);
    OwnersAreFiltered(Play(r, calls), model, r.order, b => model in LastSynced(r, calls, b));
  }

  lemma {:induction false} PlayKeepsOrder(r: Registry, calls: seq<SyncCall>)
    ensures Play(r, calls).order == r.order && Play(r, calls).defaults == r.defaults
    ensures forall b :: OwnedBy(Play(r, calls), b) == LastSynced(r, calls, b)
  {
    if calls == [] {
    } else {
      PlayKeepsOrder(r, calls[..|calls| - 1]);
    }
  }

  lemma {:induction false} OwnersAreFiltered(r: Registry, model: Model, order: seq<Name>, keep: Name -> bool)
    requires forall b :: keep(b) <==> model in OwnedBy(r, b)
    ensures Owners(r, model, order) == Filter(order, keep)
  {
    if order == [] {
    } else {
      OwnersAreFiltered(r, model, order[..|order| - 1], keep);
    }
  }

  /** Syncs of distinct backends commute. */
  lemma SyncsCommute(r: Registry, a: Name, xs: set<Model>, b: Name, ys: set<Model>)
    requires a != b
    ensures Synced(Synced(r, a, xs), b, ys) == Synced(Synced(r, b, ys), a, xs)
  {
    assert r.owned[a := xs][b := ys] == r.owned[b := ys][a := xs];
  }

  /** A sync takes no model away from another backend, although the comment at src/gate/models.py:112 says
      newly owned models are claimed from any previous owner. */
  lemma SyncClaimsNothing(r: Registry, name: Name, models: set<Model>, b: Name, m: Model)
    requires b != name
    ensures b in Candidates(Synced(r, name, models), m) <==> b in Candidates(r, m)
  {
    OwnersMeans(r, m, r.order);
    OwnersMeans(Synced(r, name, models), m, r.order);
  }

  /** `b` is the first default backend among the owners. */
  ghost predicate FirstDefaultOwner(r: Registry, owners: seq<Name>, b: Name) {
    exists i :: 0 <= i < |owners| && owners[i] == b && IsDefault(r, b)
        && forall j | 0 <= j < i :: !IsDefault(r, owners[j])
  }

  ghost predicate FirstOwner(r: Registry, owners: seq<Name>, b: Name) {
    owners != [] && owners[0] == b && forall o <- owners :: !IsDefault(r, o)
  }

  lemma {:induction false} FirstDefaultIsFirst(r: Registry, owners: seq<Name>, b: Name)
    ensures FirstDefault(r, owners) == Some(b) <==> FirstDefaultOwner(r, owners, b)
  {
    if owners != [] && !IsDefault(r, owners[0]) {
      var rest := owners[1..];
      FirstDefaultIsFirst(r, rest, b);
      if FirstDefaultOwner(r, rest, b) {
        var i :| 0 <= i < |rest| && rest[i] == b && IsDefault(r, b) && forall j | 0 <= j < i :: !IsDefault(r, rest[j]);
        assert owners[i + 1] == b && forall j | 0 <= j < i + 1 :: !IsDefault(r, owners[j]);
      }
      if FirstDefaultOwner(r, owners, b) {
        var i :| 0 <= i < |owners| && owners[i] == b && IsDefault(r, b)
            && forall j | 0 <= j < i :: !IsDefault(r, owners[j]);
        assert rest[i - 1] == b && forall j | 0 <= j < i - 1 :: !IsDefault(r, rest[j]);
      }
    } else if owners != [] {
      assert IsDefault(r, owners[0]);
    }
  }

  /** When a sync does claim a model: exactly when the syncing backend comes out as the first default among the
      owners, or no owner is a default and it is the first. */
  lemma SyncClaimsIff(r: Registry, name: Name, models: set<Model>, m: Model)
    ensures var after := Synced(r, name, models);
            var owners := Candidates(after, m);
            Resolved(after, m) == Some(name) <==>
            FirstDefaultOwner(after, owners, name) || FirstOwner(after, owners, name)
  {
    var after := Synced(r, name, models);
    var owners := Candidates(after, m);
    FirstDefaultIsFirst(after, owners, name);
    FirstDefaultMeans(after, owners);
    if owners != [] {
      assert owners[0] in owners;
    }
  }

  /** A second backend that syncs a model a first one owns does not get it. */
  lemma SecondOwnerDoesNotClaim(m: Model)
    ensures var r := Registry(map["first" := {m}, "second" := {}], map["first" := false, "second" := false],
            ["first", "second"]);
            && Resolved(r, m) == Some("first")
            && Resolved(Synced(r, "second", {m}), m) == Some("first")
            && Candidates(Synced(r, "second", {m}), m) == ["first", "second"]
  {
    var order := ["first", "second"];
    var r := Registry(map["first" := {m}, "second" := {}], map["first" := false, "second" := false], order);
    assert order[0][0] != order[1][0];
    TwoOwners(r, m, "first", "second");
    TwoOwners(Synced(r, "second", {m}), m, "first", "second");
    FirstDefaultMeans(Synced(r, "second", {m}), order);
  }

  lemma TwoOwners(r: Registry, m: Model, a: Name, b: Name)
    requires r.order == [a, b] && m in OwnedBy(r, a)
    ensures Candidates(r, m) == if m in OwnedBy(r, b) then [a, b] else [a]
  {
    assert r.order[..1] == [a] && [a][..0] == [];
    assert Owners(r, m, [a]) == [a];
  }

  // ----- enumeration -----

  /** Python's order on strings. */
  predicate AtMost(a: Model, b: Model) {
    if a == [] then true
    else if b == [] then false
    else if a[0] == b[0] then AtMost(a[1..], b[1..])
    else a[0] < b[0]
  }

  lemma {:induction false} AtMostTotal(a: Model, b: Model)
    ensures AtMost(a, b) || AtMost(b, a)
    ensures AtMost(a, b) && AtMost(b, a) ==> a == b
  {
    if a != [] && b != [] && a[0] == b[0] {
      AtMostTotal(a[1..], b[1..]);
      assert a == [a[0]] + a[1..] && b == [b[0]] + b[1..];
    }
  }

  lemma {:induction false} AtMostTransitive(a: Model, b: Model, c: Model)
    requires AtMost(a, b) && AtMost(b, c)
    ensures AtMost(a, c)
  {
    if a != [] && a[0] == b[0] == c[0] {
      AtMostTransitive(a[1..], b[1..], c[1..]);
    }
  }

  predicate IsLeast(models: set<Model>, m: Model) {
    m in models && forall x <- models :: AtMost(m, x)
  }

  lemma {:induction false} LeastExists(models: set<Model>)
    requires models != {}
    ensures exists m :: IsLeast(models, m)
    decreases |models|
  {
    var a :| a in models;
    if models == {a} {
      AtMostTotal(a, a);
      assert IsLeast(models, a);
    } else {
      var rest := models - {a};
      LeastExists(rest);
      var b :| IsLeast(rest, b);
      AtMostTotal(a, a);
      AtMostTotal(a, b);
      var m := if AtMost(a, b) then a else b;
      forall x <- models ensures AtMost(m, x) {
        if x != a && m == a {
          AtMostTransitive(a, b, x);
        }
      }
      assert IsLeast(models, m);
    }
  }

  ghost predicate StrictlyAscending(models: seq<Model>) {
    forall i, j | 0 <= i < j < |models| :: models[i] != models[j] && AtMost(models[i], models[j])
  }

  /** `sorted(models)`. */
  ghost function Sorted(models: set<Model>): (s: seq<Model>)
    ensures forall m :: m in s <==> m in models
    ensures StrictlyAscending(s)
  {
    if models == {} then []
    else
      LeastExists(models);
      var m :| IsLeast(models, m);
      [m] + Sorted(models - {m})
  }

  /** The models of `sorted` that resolve to `backend`. */
  function Kept(r: Registry, backend: Name, sorted: seq<Model>): seq<(Model, Name)> {
    if sorted == [] then []
    else
      var m := sorted[|sorted| - 1];
      Kept(r, backend, sorted[..|sorted| - 1]) + (if Resolved(r, m) == Some(backend) then [(m, backend)] else [])
  }

  ghost function ItemsUpTo(r: Registry, k: nat): seq<(Model, Name)>
    requires k <= |r.order|
  {
    if k == 0 then [] else ItemsUpTo(r, k - 1) + Kept(r, r.order[k - 1], Sorted(OwnedBy(r, r.order[k - 1])))
  }

  ghost function Items(r: Registry): seq<(Model, Name)> {
    ItemsUpTo(r, |r.order|)
  }

  /** Entry `e` comes before `f`: its backend was registered earlier, or it has the smaller model id. */
  ghost predicate Before(order: seq<Name>, e: (Model, Name), f: (Model, Name)) {
    if e.1 == f.1 then e.0 != f.0 && AtMost(e.0, f.0)
    else exists i, j :: 0 <= i < j < |order| && order[i] == e.1 && order[j] == f.1
  }

  ghost predicate InItemOrder(order: seq<Name>, items: seq<(Model, Name)>) {
    forall i, j | 0 <= i < j < |items| :: Before(order, items[i], items[j])
  }

  lemma Append(order: seq<Name>, xs: seq<(Model, Name)>, ys: seq<(Model, Name)>)
    requires InItemOrder(order, xs) && InItemOrder(order, ys)
    requires forall x <- xs, y <- ys :: Before(order, x, y)
    ensures InItemOrder(order, xs + ys)
  {
    var all := xs + ys;
    forall i, j | 0 <= i < j < |all| ensures Before(order, all[i], all[j]) {
      if i < |xs| <= j {
        assert all[i] == xs[i] && all[j] == ys[j - |xs|];
        assert xs[i] in xs && ys[j - |xs|] in ys;
      } else if j < |xs| {
        assert Before(order, xs[i], xs[j]);
      } else {
        assert Before(order, ys[i - |xs|], ys[j - |xs|]);
      }
    }
  }

  lemma {:induction false} KeptMeans(r: Registry, backend: Name, sorted: seq<Model>)
    requires StrictlyAscending(sorted)
    ensures forall e :: e in Kept(r, backend, sorted) <==>
                        e.1 == backend && e.0 in sorted && Resolved(r, e.0) == Some(backend)
    ensures InItemOrder(r.order, Kept(r, backend, sorted))
  {
    if sorted == [] {
    } else {
      var n := |sorted| - 1;
      var init, m := sorted[..n], sorted[n];
      KeptMeans(r, backend, init);
      assert forall x :: x in sorted <==> x in init || x == m;
      var here := if Resolved(r, m) == Some(backend) then [(m, backend)] else [];
      forall x <- Kept(r, backend, init), y <- here ensures Before(r.order, x, y) {
        var j :| 0 <= j < n && init[j] == x.0;
        assert sorted[j] != sorted[n] && AtMost(sorted[j], sorted[n]);
      }
      Append(r.order, Kept(r, backend, init), here);
    }
  }

  /** What one backend adds: its models that resolve to it, after those of earlier backends. */
  lemma AddedMeans(r: Registry, b: Name)
    ensures var added := Kept(r, b, Sorted(OwnedBy(r, b)));
            && (forall e :: e in added <==> e.1 == b && Resolved(r, e.0) == Some(b))
            && InItemOrder(r.order, added)
  {
    var added := Kept(r, b, Sorted(OwnedBy(r, b)));
    KeptMeans(r, b, Sorted(OwnedBy(r, b)));
    forall e ensures e in added <==> e.1 == b && Resolved(r, e.0) == Some(b) {
      ResolvedIsOwner(r, e.0);
      OwnersMeans(r, e.0, r.order);
    }
  }

  lemma EarlierBackendsFirst(r: Registry, k: nat, x: (Model, Name), y: (Model, Name))
    requires k < |r.order| && Distinct(r.order) && x.1 in r.order[..k] && y.1 == r.order[k]
    ensures Before(r.order, x, y)
  {
    var p :| 0 <= p < k && r.order[p] == x.1;
    assert 0 <= p < k < |r.order| && r.order[k] == y.1;
  }

  lemma {:induction false} ItemsUpToMeans(r: Registry, k: nat)
    requires k <= |r.order| && Distinct(r.order)
    ensures forall e :: e in ItemsUpTo(r, k) <==> e.1 in r.order[..k] && Resolved(r, e.0) == Some(e.1)
    ensures InItemOrder(r.order, ItemsUpTo(r, k))
  {
    if k == 0 {
    } else {
      var b := r.order[k - 1];
      var earlier, later := ItemsUpTo(r, k - 1), Kept(r, b, Sorted(OwnedBy(r, b)));
      ItemsUpToMeans(r, k - 1);
      AddedMeans(r, b);
      assert forall x :: x in r.order[..k] <==> x in r.order[..k - 1] || x == b;
      forall x <- earlier, y <- later ensures Before(r.order, x, y) {
        EarlierBackendsFirst(r, k - 1, x, y);
      }
      Append(r.order, earlier, later);
    }
  }

  /** `items` lists every owned model exactly once, under the backend it resolves to, ordered by
      registration and then by model id. */
  lemma ItemsListEachModelOnce(r: Registry)
    requires Distinct(r.order)
    ensures forall m, b :: (m, b) in Items(r) <==> Resolved(r, m) == Some(b)
    ensures InItemOrder(r.order, Items(r))
    ensures forall i, j | 0 <= i < j < |Items(r)| :: Items(r)[i].0 != Items(r)[j].0
  {
    ItemsUpToMeans(r, |r.order|);
    assert r.order[..|r.order|] == r.order;
    forall m, b ensures (m, b) in Items(r) <==> Resolved(r, m) == Some(b) {
      ResolvedIsOwner(r, m);
      OwnersMeans(r, m, r.order);
    }
    var items := Items(r);
    forall i, j | 0 <= i < j < |items| ensures items[i].0 != items[j].0 {
      assert items[i] in items && items[j] in items;
      assert Before(r.order, items[i], items[j]);
    }
  }

  // ----- the registry object -----

  /** Several backends own the model, `b` among them. */
  predicate InConflict(r: Registry, m: Model, b: Name) {
    |Candidates(r, m)| > 1 && b in Candidates(r, m)
  }

  /** A sync changes the owners of no model outside the old and the new owned set. */
  lemma {:induction false} SyncTouches(r: Registry, name: Name, models: set<Model>, m: Model, order: seq<Name>)
    requires m !in OwnedBy(r, name) && m !in models
    ensures Owners(Synced(r, name, models), m, order) == Owners(r, m, order)
  {
    if order == [] {
    } else {
      SyncTouches(r, name, models, m, order[..|order| - 1]);
    }
  }

  lemma {:induction false} RegisterTouches(r: Registry, name: Name, isDefault: bool, m: Model, order: seq<Name>)
    ensures Owners(Register(r, name, isDefault), m, order) == Owners(r, m, order)
  {
    if order == [] {
    } else {
      RegisterTouches(r, name, isDefault, m, order[..|order| - 1]);
    }
  }

  lemma RegisterAddsNoConflict(r: Registry, name: Name, isDefault: bool)
    requires OwnedBy(r, name) == {}
    ensures forall m :: Candidates(Register(r, name, isDefault), m) == Candidates(r, m)
  {
    forall m ensures Candidates(Register(r, name, isDefault), m) == Candidates(r, m) {
      var s := Register(r, name, isDefault);
      assert s.order[..|s.order| - 1] == r.order;
      RegisterTouches(r, name, isDefault, m, r.order);
    }
  }

  datatype SyncError = NotRegistered(name: Name)

  class ModelRegistry {
    var owned: map<Name, set<Model>>
    var defaults: map<Name, bool>
    var order: seq<Name>
    var logged: set<(Model, Name)>
    /** Every conflict warning made. */
    ghost var warnings: seq<(Model, Name)>

    ghost function Abstract(): Registry
      reads this
    {
      Registry(owned, defaults, order)
    }

    /** No conflict is warned about twice. */
    ghost predicate Valid()
      reads this
    {
      && (forall p :: p in warnings <==> p in logged)
      && (forall i, j | 0 <= i < j < |warnings| :: warnings[i] != warnings[j])
      && (forall n :: n in order <==> n in defaults) && defaults.Keys == owned.Keys
      && Distinct(order)
    }

    /** Every conflict there is has been warned about. */
    ghost predicate ConflictsLogged()
      reads this
    {
      forall m, b | InConflict(Abstract(), m, b) :: (m, b) in logged
    }

    constructor ()
      ensures Valid() && ConflictsLogged() && Abstract() == EMPTY_REGISTRY && warnings == []
    {
      owned, defaults, order, logged, warnings := map[], map[], [], {}, [];
    }

    /** Callers register each name once. */
    method RegisterBackend(name: Name, isDefault: bool)
      requires Valid() && ConflictsLogged() && name !in defaults
      modifies this
      ensures Valid() && ConflictsLogged() && Abstract() == Register(old(Abstract()), name, isDefault)
      ensures warnings == old(warnings)
    {
      ghost var r := Abstract();
      defaults := defaults[name := isDefault];
      if name !in owned {
        owned := owned[name := {}];
      }
      order := order + [name];
      RegisterAddsNoConflict(r, name, isDefault);
      assert Abstract() == Register(r, name, isDefault);
    }

    /** An unregistered name fails loudly; otherwise the owned set is replaced and every conflict it
        leads to has been warned about. */
    method Sync(name: Name, models: set<Model>) returns (r: Outcome<SyncError>)
      requires Valid() && ConflictsLogged()
      modifies this
      ensures Valid() && ConflictsLogged() && old(warnings) <= warnings
      ensures r.Fail? <==> name !in old(defaults)
      ensures Abstract() == if r.Pass? then Synced(old(Abstract()), name, models) else old(Abstract())
    {
      if name !in defaults { return Fail(NotRegistered(name)); }
      ghost var before := Abstract();
      var affected := (if name in owned then owned[name] else {}) + models;
      owned := owned[name := models];
      forall m, b | m !in affected && InConflict(Abstract(), m, b) ensures (m, b) in logged {
        SyncTouches(before, name, models, m, order);
        assert InConflict(before, m, b);
      }
      while affected != {}
        invariant Valid() && Abstract() == Synced(before, name, models)
        invariant old(warnings) <= warnings
        invariant forall m, b | m !in affected && InConflict(Abstract(), m, b) :: (m, b) in logged
        decreases |affected|
      {
        var m :| m in affected;
        ResolveModel(m);
        affected := affected - {m};
      }
      return Pass;
    }

    method ResolveModel(model: Model)
      requires Valid()
      modifies this
      ensures Valid() && Abstract() == old(Abstract()) && old(warnings) <= warnings
      ensures forall p :: p in logged <==> p in old(logged) || (p.0 == model && InConflict(Abstract(), p.0, p.1))
    {
      var owners := Owned(model);
      if owners == [] { return; }
      var _ := PickWinner(model, owners);
    }

    method Resolve(model: Model) returns (backend: Option<Name>)
      requires Valid()
      modifies this
      ensures Valid() && Abstract() == old(Abstract()) && old(warnings) <= warnings
      ensures forall p :: p in logged <==> p in old(logged) || (p.0 == model && InConflict(Abstract(), p.0, p.1))
      ensures backend == Resolved(Abstract(), model)
    {
      var owners := Owned(model);
      if owners == [] { return None; }
      var winner := PickWinner(model, owners);
      return Some(winner);
    }

    /** The owners in registration order. */
    function Owned(model: Model): (owners: seq<Name>)
      reads this
      ensures owners == Candidates(Abstract(), model)
    {
      Owners(Registry(owned, defaults, order), model, order)
    }

    function ResolveCandidates(model: Model): (candidates: seq<Name>)
      reads this
      ensures candidates == Candidates(Abstract(), model)
    {
      Owned(model)
    }

    /** The collision policy, with its once-per-pair warnings. */
    method PickWinner(model: Model, owners: seq<Name>) returns (winner: Name)
      requires Valid() && owners == Candidates(Abstract(), model) && owners != []
      modifies this
      ensures Valid() && Abstract() == old(Abstract()) && old(warnings) <= warnings
      ensures winner == Winner(Abstract(), owners)
      ensures forall p :: p in logged <==> p in old(logged) || (p.0 == model && InConflict(Abstract(), p.0, p.1))
    {
      if |owners| <= 1 { return owners[0]; }
      winner := FirstDefault(Registry(owned, defaults, order), owners).GetOr(owners[0]);
      for i := 0 to |owners|
        invariant Valid() && Abstract() == old(Abstract()) && old(warnings) <= warnings
        invariant forall p :: p in logged <==> p in old(logged) || (p.0 == model && p.1 in owners[..i])
      {
        var key := (model, owners[i]);
        if key !in logged {
          logged := logged + {key};
          warnings := warnings + [key];
        }
      }
      assert owners[..|owners|] == owners;
    }

    method Enumerate() returns (items: seq<(Model, Name)>)
      requires Valid()
      modifies this
      ensures Valid() && Abstract() == old(Abstract())
      ensures items == Items(Abstract())
    {
      ghost var r := Abstract();
      items := [];
      var n := |order|;
      for i := 0 to n
        invariant Valid() && Abstract() == r && n == |r.order|
        invariant items == ItemsUpTo(r, i)
      {
        items := EnumerateNext(items, i);
      }
    }

    method EnumerateNext(items: seq<(Model, Name)>, k: nat) returns (more: seq<(Model, Name)>)
      requires Valid() && k < |order| && items == ItemsUpTo(Abstract(), k)
      modifies this
      ensures Valid() && Abstract() == old(Abstract())
      ensures more == ItemsUpTo(Abstract(), k + 1)
    {
      var kept := EnumerateOne(k);
      more := items + kept;
    }

    /** The sorted models of one backend that resolve to it: what it adds to the enumeration. */
    method EnumerateOne(k: nat) returns (kept: seq<(Model, Name)>)
      requires Valid() && k < |order|
      modifies this
      ensures Valid() && Abstract() == old(Abstract())
      ensures ItemsUpTo(Abstract(), k + 1) == ItemsUpTo(Abstract(), k) + kept
    {
      ghost var r := Abstract();
      var backend := order[k];
      kept := [];
      var models := SortModels(OwnedBy(Registry(owned, defaults, order), backend));
      for j := 0 to |models|
        invariant Valid() && Abstract() == r
        invariant kept == Kept(r, backend, models[..j])
      {
        KeptStep(r, backend, models, j);
        var winner := Resolve(models[j]);
        if winner == Some(backend) {
          kept := kept + [(models[j], backend)];
        }
      }
      assert models[..|models|] == models;
      ItemsStep(r, k, kept);
    }
  }

  lemma ItemsStep(r: Registry, k: nat, kept: seq<(Model, Name)>)
    requires k < |r.order| && kept == Kept(r, r.order[k], Sorted(OwnedBy(r, r.order[k])))
    ensures ItemsUpTo(r, k + 1) == ItemsUpTo(r, k) + kept
  {
  }

  lemma KeptStep(r: Registry, backend: Name, models: seq<Model>, j: nat)
    requires j < |models|
    ensures Kept(r, backend, models[..j + 1]) ==
            if Resolved(r, models[j]) == Some(backend) then Kept(r, backend, models[..j]) + [(models[j], backend)]
                else Kept(r, backend, models[..j])
  {
    assert models[..j + 1][..j] == models[..j];
  }

  method SortModels(models: set<Model>) returns (s: seq<Model>)
    ensures s == Sorted(models)
  {
    var rest := models;
    s := [];
    while rest != {}
      invariant Sorted(models) == s + Sorted(rest)
      decreases |rest|
    {
      LeastExists(rest);
      var m :| IsLeast(rest, m);
      SortStep(s, rest, m);
      s := s + [m];
      rest := rest - {m};
    }
  }

  lemma SortStep(s: seq<Model>, rest: set<Model>, m: Model)
    requires IsLeast(rest, m)
    ensures s + Sorted(rest) == s + [m] + Sorted(rest - {m})
  {
    AtMostTotal(m, Sorted(rest)[0]);
    assert Sorted(rest) == [m] + Sorted(rest - {m});
  }
}
