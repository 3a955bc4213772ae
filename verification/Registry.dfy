/** The provider registry: an ordered dictionary of providers and two indexes over it. */
module Registry {
  import opened Common

  datatype ModelTier = Flagship | Balanced | Economy

  datatype ModelSpec = ModelSpec(name: string, tier: ModelTier, inputCost: real, outputCost: real)

  /** A provider object; `identity` tells apart objects whose configurations are equal. */
  datatype Provider = Provider(identity: nat, name: string, specs: seq<ModelSpec>, defaultTier: ModelTier) {
    function Models(): seq<string> {
      seq(|specs|, i requires 0 <= i < |specs| => specs[i].name)
    }

    function Tiers(): seq<ModelTier> {
      seq(|specs|, i requires 0 <= i < |specs| => specs[i].tier)
    }

    predicate Serves(model: string) {
      model in Models()
    }

    predicate InTier(tier: ModelTier) {
      tier in Tiers() || tier == defaultTier
    }
  }

  type Index<K> = map<K, seq<Provider>>

  /** `providers` is the dictionary in insertion order. */
  datatype Reg = Reg(providers: seq<Provider>, byModel: Index<string>, byTier: Index<ModelTier>)

  const EMPTY_REG := Reg([], map[], map[])

  function Bucket<K>(index: Index<K>, key: K): seq<Provider> {
    if key in index then index[key] else []
  }

  function Find(providers: seq<Provider>, name: string): Option<Provider> {
    if providers == [] then None
    else if providers[0].name == name then Some(providers[0])
    else Find(providers[1..], name)
  }

  /** Assigning a key of a dictionary: in place if present, else at the end. */
  function Put(providers: seq<Provider>, p: Provider): seq<Provider> {
    if providers == [] then [p]
    else if providers[0].name == p.name then [p] + providers[1..]
    else [providers[0]] + Put(providers[1..], p)
  }

  function Without(providers: seq<Provider>, p: Provider): seq<Provider> {
    if providers == [] then []
    else if providers[0] == p then providers[1..]
    else [providers[0]] + Without(providers[1..], p)
  }

  function AddTo<K>(index: Index<K>, key: K, p: Provider): Index<K> {
    if p in Bucket(index, key) then index else index[key := Bucket(index, key) + [p]]
  }

  function DropFrom<K>(index: Index<K>, key: K, p: Provider): Index<K> {
    if p in Bucket(index, key) then index[key := Without(index[key], p)] else index
  }

  function AddAll<K>(index: Index<K>, p: Provider, keys: seq<K>): Index<K>
    decreases |keys|
  {
    if keys == [] then index else AddAll(AddTo(index, keys[0], p), p, keys[1..])
  }

  function DropAll<K>(index: Index<K>, p: Provider, keys: seq<K>): Index<K>
    decreases |keys|
  {
    if keys == [] then index else DropAll(DropFrom(index, keys[0], p), p, keys[1..])
  }

  lemma AddAllStep<K>(index: Index<K>, p: Provider, keys: seq<K>, i: nat)
    requires i < |keys|
    ensures AddAll(index, p, keys[i..]) == AddAll(AddTo(index, keys[i], p), p, keys[i + 1..])
  {
    assert keys[i..][1..] == keys[i + 1..];
  }

  function Registered(r: Reg, p: Provider): Reg {
    var byTier := AddAll(r.byTier, p, p.Tiers());
    Reg(Put(r.providers, p), AddAll(r.byModel, p, p.Models()),
        if p.defaultTier in p.Tiers() then byTier else AddTo(byTier, p.defaultTier, p))
  }

  function Unregistered(r: Reg, name: string): Reg {
    match Find(r.providers, name)
    case None => r
    case Some(p) => Reg(Without(r.providers, p), DropAll(r.byModel, p, p.Models()), DropAll(r.byTier, p, p.Tiers()))
  }

  class ProviderRegistry {
    var providers: seq<Provider>
    var byModelIndex: Index<string>
    var byTierIndex: Index<ModelTier>

    function View(): Reg
      reads this
    {
      Reg(providers, byModelIndex, byTierIndex)
    }

    constructor ()
      ensures View() == EMPTY_REG
    {
      providers, byModelIndex, byTierIndex := [], map[], map[];
    }

    method Register(p: Provider)
      modifies this
      ensures View() == Registered(old(View()), p)
    {
      providers := Put(providers, p);
      ghost var models, tiers := p.Models(), p.Tiers();
      for i := 0 to |p.specs|
        invariant providers == Put(old(providers), p)
        invariant AddAll(byModelIndex, p, models[i..]) == AddAll(old(byModelIndex), p, models)
        invariant AddAll(byTierIndex, p, tiers[i..]) == AddAll(old(byTierIndex), p, tiers)
      {
        var spec := p.specs[i];
        AddAllStep(byModelIndex, p, models, i);
        AddAllStep(byTierIndex, p, tiers, i);
        byModelIndex := AddTo(byModelIndex, spec.name, p);
        byTierIndex := AddTo(byTierIndex, spec.tier, p);
      }
      if p.defaultTier !in p.Tiers() {
        byTierIndex := AddTo(byTierIndex, p.defaultTier, p);
      }
    }

    method Unregister(name: string)
      modifies this
      ensures View() == Unregistered(old(View()), name)
    {
      var found := Find(providers, name);
      if found == None {
        return;
      }
      var p := found.value;
      ghost var models, tiers := p.Models(), p.Tiers();
      providers := Without(providers, p);
      for i := 0 to |p.specs|
        invariant providers == Without(old(providers), p)
        invariant DropAll(byModelIndex, p, models[i..]) == DropAll(old(byModelIndex), p, models)
        invariant DropAll(byTierIndex, p, tiers[i..]) == DropAll(old(byTierIndex), p, tiers)
      {
        var spec := p.specs[i];
        assert models[i..][0] == spec.name && models[i..][1..] == models[i + 1..];
        assert tiers[i..][0] == spec.tier && tiers[i..][1..] == tiers[i + 1..];
        byModelIndex := DropFrom(byModelIndex, spec.name, p);
        byTierIndex := DropFrom(byTierIndex, spec.tier, p);
      }
    }

    function All(): seq<Provider>
      reads this
    {
      providers
    }

    function ByModel(model: string): seq<Provider>
      reads this
    {
      Bucket(byModelIndex, model)
    }

    function ByTier(tier: ModelTier): seq<Provider>
      reads this
    {
      Bucket(byTierIndex, tier)
    }
  }

  // ---------------------------------------------------------------------------
  // The indexes agree with the dictionary
  // ---------------------------------------------------------------------------

  /** A scan of the dictionary. */
  function Scan(providers: seq<Provider>, wanted: Provider -> bool): seq<Provider> {
    if providers == [] then []
    else (if wanted(providers[0]) then [providers[0]] else []) + Scan(providers[1..], wanted)
  }

  function ServesModel(model: string): Provider -> bool {
    (p: Provider) => p.Serves(model)
  }

  function IsInTier(tier: ModelTier): Provider -> bool {
    (p: Provider) => p.InTier(tier)
  }

  ghost predicate UniqueNames(providers: seq<Provider>) {
    forall i, j :: 0 <= i < j < |providers| ==> providers[i].name != providers[j].name
  }

  /** A lookup returns what a scan of the dictionary would, in the same order. */
  ghost predicate Agrees(r: Reg) {
    && UniqueNames(r.providers)
    && (forall m :: Bucket(r.byModel, m) == Scan(r.providers, ServesModel(m)))
    && (forall t :: Bucket(r.byTier, t) == Scan(r.providers, IsInTier(t)))
  }

  lemma {:induction false} FindMeans(providers: seq<Provider>, name: string)
    ensures Find(providers, name).Some? ==> Find(providers, name).value in providers && Find(providers, name).value.name == name
    ensures Find(providers, name).None? <==> forall p :: p in providers ==> p.name != name
  {
    if providers != [] {
      FindMeans(providers[1..], name);
    }
  }

  lemma {:induction false} ScanMembers(providers: seq<Provider>, wanted: Provider -> bool)
    ensures forall p :: p in Scan(providers, wanted) <==> p in providers && wanted(p)
  {
    if providers != [] {
      ScanMembers(providers[1..], wanted);
    }
  }

  lemma {:induction false} ScanSnoc(providers: seq<Provider>, wanted: Provider -> bool, p: Provider)
    ensures Scan(providers + [p], wanted) == Scan(providers, wanted) + if wanted(p) then [p] else []
  {
    if providers == [] {
      assert providers + [p] == [p] && [p][1..] == [];
    } else {
      assert (providers + [p])[1..] == providers[1..] + [p];
      ScanSnoc(providers[1..], wanted, p);
    }
  }

  lemma {:induction false} WithoutAbsent(providers: seq<Provider>, p: Provider)
    requires p !in providers
    ensures Without(providers, p) == providers
  {
    if providers != [] {
      WithoutAbsent(providers[1..], p);
    }
  }

  lemma {:induction false} WithoutMembers(providers: seq<Provider>, p: Provider)
    requires UniqueNames(providers)
    ensures forall q :: q in Without(providers, p) <==> q in providers && q != p
    ensures UniqueNames(Without(providers, p))
  {
    if providers != [] {
      var first, rest := providers[0], providers[1..];
      assert UniqueNames(rest);
      assert forall q :: q in rest ==> q.name != first.name;
      WithoutMembers(rest, p);
    }
  }

  lemma {:induction false} ScanWithout(providers: seq<Provider>, wanted: Provider -> bool, p: Provider)
    requires UniqueNames(providers)
    ensures Scan(Without(providers, p), wanted) == Without(Scan(providers, wanted), p)
  {
    if providers != [] {
      var first, rest := providers[0], providers[1..];
      assert UniqueNames(rest);
      assert forall q :: q in rest ==> q.name != first.name;
      ScanMembers(rest, wanted);
      if first == p {
        WithoutAbsent(Scan(rest, wanted), p);
        assert ([p] + Scan(rest, wanted))[1..] == Scan(rest, wanted);
        assert [] + Scan(rest, wanted) == Scan(rest, wanted);
      } else {
        ScanWithout(rest, wanted, p);
        assert ([first] + Without(rest, p))[1..] == Without(rest, p);
        assert ([first] + Scan(rest, wanted))[1..] == Scan(rest, wanted);
        assert [] + Scan(rest, wanted) == Scan(rest, wanted);
        assert [] + Scan(Without(rest, p), wanted) == Scan(Without(rest, p), wanted);
      }
    }
  }

  lemma {:induction false} AddAllEffect<K>(index: Index<K>, p: Provider, keys: seq<K>, key: K)
    ensures Bucket(AddAll(index, p, keys), key)
         == Bucket(index, key) + if key in keys && p !in Bucket(index, key) then [p] else []
    decreases |keys|
  {
    if keys != [] {
      AddAllEffect(AddTo(index, keys[0], p), p, keys[1..], key);
    }
  }

  /** Dropping twice drops once, provided the provider is listed at most once. */
  lemma {:induction false} DropAllEffect<K>(index: Index<K>, p: Provider, keys: seq<K>, key: K)
    requires p !in Without(Bucket(index, key), p)
    ensures Bucket(DropAll(index, p, keys), key) == if key in keys then Without(Bucket(index, key), p) else Bucket(index, key)
    decreases |keys|
  {
    if keys != [] {
      if p in Bucket(index, key) {
        WithoutAbsent(Without(Bucket(index, key), p), p);
      } else {
        WithoutAbsent(Bucket(index, key), p);
      }
      DropAllEffect(DropFrom(index, keys[0], p), p, keys[1..], key);
    }
  }

  lemma {:induction false} PutNew(providers: seq<Provider>, p: Provider)
    requires Find(providers, p.name) == None
    ensures Put(providers, p) == providers + [p]
  {
    if providers != [] {
      PutNew(providers[1..], p);
      assert [providers[0]] + (providers[1..] + [p]) == providers + [p];
    }
  }

  lemma {:induction false} PutAgain(providers: seq<Provider>, p: Provider)
    requires UniqueNames(providers) && Find(providers, p.name).Some?
    ensures Find(providers, p.name).value == p ==> Put(providers, p) == providers
    ensures Find(providers, p.name).value != p ==> Find(providers, p.name).value !in Put(providers, p)
  {
    var first, rest := providers[0], providers[1..];
    assert UniqueNames(rest);
    if first.name == p.name {
      assert forall q :: q in rest ==> q.name != first.name;
      assert providers == [first] + rest;
    } else {
      PutAgain(rest, p);
      FindMeans(rest, p.name);
    }
  }

  lemma FreshModel(r: Reg, p: Provider, m: string)
    requires p !in r.providers && Bucket(r.byModel, m) == Scan(r.providers, ServesModel(m))
    ensures Bucket(AddAll(r.byModel, p, p.Models()), m) == Scan(r.providers + [p], ServesModel(m))
  {
    ScanSnoc(r.providers, ServesModel(m), p);
    ScanMembers(r.providers, ServesModel(m));
    AddAllEffect(r.byModel, p, p.Models(), m);
  }

  lemma FreshTier(r: Reg, p: Provider, t: ModelTier)
    requires p !in r.providers && Bucket(r.byTier, t) == Scan(r.providers, IsInTier(t))
    ensures Bucket(Registered(r, p).byTier, t) == Scan(r.providers + [p], IsInTier(t))
  {
    ScanSnoc(r.providers, IsInTier(t), p);
    ScanMembers(r.providers, IsInTier(t));
    AddAllEffect(r.byTier, p, p.Tiers(), t);
  }

  lemma RegisterFresh(r: Reg, p: Provider)
    requires Agrees(r) && Find(r.providers, p.name) == None
    ensures Agrees(Registered(r, p))
  {
    var after := Registered(r, p);
    PutNew(r.providers, p);
    FindMeans(r.providers, p.name);
    assert p !in r.providers && UniqueNames(after.providers);
    forall m
      ensures Bucket(after.byModel, m) == Scan(after.providers, ServesModel(m))
    {
      FreshModel(r, p, m);
    }
    forall t
      ensures Bucket(after.byTier, t) == Scan(after.providers, IsInTier(t))
    {
      FreshTier(r, p, t);
    }
  }

  lemma SameModel(r: Reg, p: Provider, m: string)
    requires p in r.providers && Bucket(r.byModel, m) == Scan(r.providers, ServesModel(m))
    ensures Bucket(AddAll(r.byModel, p, p.Models()), m) == Bucket(r.byModel, m)
  {
    ScanMembers(r.providers, ServesModel(m));
    AddAllEffect(r.byModel, p, p.Models(), m);
  }

  lemma SameTier(r: Reg, p: Provider, t: ModelTier)
    requires p in r.providers && Bucket(r.byTier, t) == Scan(r.providers, IsInTier(t))
    ensures Bucket(Registered(r, p).byTier, t) == Bucket(r.byTier, t)
  {
    ScanMembers(r.providers, IsInTier(t));
    AddAllEffect(r.byTier, p, p.Tiers(), t);
  }

  lemma RegisterSame(r: Reg, p: Provider)
    requires Agrees(r) && Find(r.providers, p.name) == Some(p)
    ensures Agrees(Registered(r, p))
  {
    var after := Registered(r, p);
    PutAgain(r.providers, p);
    FindMeans(r.providers, p.name);
    forall m
      ensures Bucket(after.byModel, m) == Scan(after.providers, ServesModel(m))
    {
      SameModel(r, p, m);
    }
    forall t
      ensures Bucket(after.byTier, t) == Scan(after.providers, IsInTier(t))
    {
      SameTier(r, p, t);
    }
  }

  /** Replacing a provider by another object of the same name leaves the old one in the tier index. */
  lemma RegisterOther(r: Reg, p: Provider)
    requires Agrees(r) && Find(r.providers, p.name).Some? && Find(r.providers, p.name).value != p
    ensures !Agrees(Registered(r, p))
  {
    var after, stale := Registered(r, p), Find(r.providers, p.name).value;
    PutAgain(r.providers, p);
    FindMeans(r.providers, p.name);
    var t := stale.defaultTier;
    ScanMembers(r.providers, IsInTier(t));
    AddAllEffect(r.byTier, p, p.Tiers(), t);
    assert stale in Bucket(r.byTier, t) && stale in Bucket(after.byTier, t);
    ScanMembers(after.providers, IsInTier(t));
  }

  /** Registering keeps the indexes in step exactly when the name is new or the very same object is registered again. */
  lemma RegisterKeepsAgreement(r: Reg, p: Provider)
    requires Agrees(r)
    ensures Agrees(Registered(r, p)) <==> Find(r.providers, p.name) == None || Find(r.providers, p.name) == Some(p)
  {
    if Find(r.providers, p.name) == None {
      RegisterFresh(r, p);
    } else if Find(r.providers, p.name) == Some(p) {
      RegisterSame(r, p);
    } else {
      RegisterOther(r, p);
    }
  }

  lemma DropEffect(r: Reg, p: Provider)
    requires Agrees(r) && p in r.providers
    ensures forall m :: Bucket(DropAll(r.byModel, p, p.Models()), m) == Scan(Without(r.providers, p), ServesModel(m))
    ensures forall t :: t in p.Tiers() || t != p.defaultTier ==>
              Bucket(DropAll(r.byTier, p, p.Tiers()), t) == Scan(Without(r.providers, p), IsInTier(t))
    ensures forall t :: t !in p.Tiers() ==> Bucket(DropAll(r.byTier, p, p.Tiers()), t) == Bucket(r.byTier, t)
  {
    WithoutMembers(r.providers, p);
    forall m
      ensures Bucket(DropAll(r.byModel, p, p.Models()), m) == Scan(Without(r.providers, p), ServesModel(m))
    {
      ScanWithout(r.providers, ServesModel(m), p);
      ScanMembers(Without(r.providers, p), ServesModel(m));
      ScanMembers(r.providers, ServesModel(m));
      DropAllEffect(r.byModel, p, p.Models(), m);
      if m !in p.Models() {
        WithoutAbsent(Bucket(r.byModel, m), p);
      }
    }
    forall t
      ensures t in p.Tiers() || t != p.defaultTier ==>
                Bucket(DropAll(r.byTier, p, p.Tiers()), t) == Scan(Without(r.providers, p), IsInTier(t))
      ensures t !in p.Tiers() ==> Bucket(DropAll(r.byTier, p, p.Tiers()), t) == Bucket(r.byTier, t)
    {
      ScanWithout(r.providers, IsInTier(t), p);
      ScanMembers(Without(r.providers, p), IsInTier(t));
      ScanMembers(r.providers, IsInTier(t));
      DropAllEffect(r.byTier, p, p.Tiers(), t);
      if !p.InTier(t) {
        WithoutAbsent(Bucket(r.byTier, t), p);
      }
    }
  }

  /** Unregistering keeps them in step exactly when the provider has a model in its default tier. */
  lemma UnregisterKeepsAgreement(r: Reg, name: string)
    requires Agrees(r)
    ensures var found := Find(r.providers, name);
            Agrees(Unregistered(r, name)) <==> found == None || found.value.defaultTier in found.value.Tiers()
  {
    FindMeans(r.providers, name);
    if Find(r.providers, name).Some? {
      var p, after := Find(r.providers, name).value, Unregistered(r, name);
      DropEffect(r, p);
      WithoutMembers(r.providers, p);
      if p.defaultTier !in p.Tiers() {
        var t := p.defaultTier;
        ScanMembers(r.providers, IsInTier(t));
        ScanMembers(after.providers, IsInTier(t));
        assert p in Bucket(after.byTier, t) && p !in Scan(after.providers, IsInTier(t));
      }
    }
  }

  datatype Change = Register(p: Provider) | Unregister(name: string)

  function Changed(r: Reg, changes: seq<Change>): Reg
    decreases |changes|
  {
    if changes == [] then r
    else Changed(match changes[0] case Register(p) => Registered(r, p) case Unregister(name) => Unregistered(r, name), changes[1..])
  }

  /** Changes a caller may make: no second object under a taken name, no provider without a model in its default tier. */
  ghost predicate Careful(r: Reg, changes: seq<Change>)
    decreases |changes|
  {
    changes == [] ||
    match changes[0]
    case Register(p) =>
      (Find(r.providers, p.name) == None || Find(r.providers, p.name) == Some(p)) && Careful(Registered(r, p), changes[1..])
    case Unregister(name) =>
      var found := Find(r.providers, name);
      (found == None || found.value.defaultTier in found.value.Tiers()) && Careful(Unregistered(r, name), changes[1..])
  }

  lemma {:induction false} CarefulRunsAgree(r: Reg, changes: seq<Change>)
    requires Agrees(r) && Careful(r, changes)
    ensures Agrees(Changed(r, changes))
    decreases |changes|
  {
    if changes != [] {
      match changes[0]
      case Register(p) =>
        RegisterKeepsAgreement(r, p);
        CarefulRunsAgree(Registered(r, p), changes[1..]);
      case Unregister(name) =>
        UnregisterKeepsAgreement(r, name);
        CarefulRunsAgree(Unregistered(r, name), changes[1..]);
    }
  }
}
