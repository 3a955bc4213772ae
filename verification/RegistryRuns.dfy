/** What the registry's dictionary and lookups hold after any run of changes. */
module RegistryRuns {
  import opened Common
  import opened Registry

  // ---------------------------------------------------------------------------
  // The dictionary
  // ---------------------------------------------------------------------------

  /** Registering under a taken name replaces the provider where it stands. */
  lemma {:induction false} PutReplaces(providers: seq<Provider>, p: Provider)
    requires UniqueNames(providers) && Find(providers, p.name).Some?
    ensures |Put(providers, p)| == |providers|
    ensures forall i :: 0 <= i < |providers| ==> Put(providers, p)[i] == if providers[i].name == p.name then p else providers[i]
  {
    var first, rest := providers[0], providers[1..];
    assert UniqueNames(rest);
    if first.name == p.name {
      assert forall q :: q in rest ==> q.name != first.name;
    } else {
      PutReplaces(rest, p);
    }
  }

  /** Registering under a new name appends the provider. */
  lemma RegisterAppends(r: Reg, p: Provider)
    requires Find(r.providers, p.name) == None
    ensures Registered(r, p).providers == r.providers + [p]
  {
    PutNew(r.providers, p);
  }

  /** Unregistering takes out the provider of that name and leaves the others in their order. */
  lemma {:induction false} WithoutFilters(providers: seq<Provider>, p: Provider)
    requires UniqueNames(providers) && p in providers
    ensures Without(providers, p) == Scan(providers, (x: Provider) => x.name != p.name)
  {
    var other := (x: Provider) => x.name != p.name;
    var first, rest := providers[0], providers[1..];
    assert UniqueNames(rest);
    if first == p {
      forall x | x in rest
        ensures other(x)
      {
        assert x.name != first.name;
      }
      ScanAll(rest, other);
      assert [] + Scan(rest, other) == rest;
    } else {
      assert p.name != first.name;
      WithoutFilters(rest, p);
    }
  }

  lemma {:induction false} ScanAll(providers: seq<Provider>, wanted: Provider -> bool)
    requires forall x :: x in providers ==> wanted(x)
    ensures Scan(providers, wanted) == providers
  {
    if providers != [] {
      ScanAll(providers[1..], wanted);
    }
  }

  lemma {:induction false} PutKeepsUnique(providers: seq<Provider>, p: Provider)
    requires UniqueNames(providers)
    ensures UniqueNames(Put(providers, p))
    ensures forall n :: Find(Put(providers, p), n) == if n == p.name then Some(p) else Find(providers, n)
  {
    FindMeans(providers, p.name);
    if Find(providers, p.name) == None {
      PutNew(providers, p);
    } else {
      PutReplaces(providers, p);
    }
    forall n
      ensures Find(Put(providers, p), n) == if n == p.name then Some(p) else Find(providers, n)
    {
      FindAfterPut(providers, p, n);
    }
  }

  lemma {:induction false} FindAfterPut(providers: seq<Provider>, p: Provider, n: string)
    ensures Find(Put(providers, p), n) == if n == p.name then Some(p) else Find(providers, n)
  {
    if providers != [] && providers[0].name != p.name {
      FindAfterPut(providers[1..], p, n);
    }
  }

  lemma {:induction false} FindAfterWithout(providers: seq<Provider>, p: Provider, n: string)
    requires UniqueNames(providers) && p in providers
    ensures Find(Without(providers, p), n) == if n == p.name then None else Find(providers, n)
  {
    var first, rest := providers[0], providers[1..];
    assert UniqueNames(rest);
    if first == p {
      assert forall x :: x in rest ==> x.name != first.name;
      FindMeans(rest, p.name);
    } else {
      assert p.name != first.name;
      FindAfterWithout(rest, p, n);
    }
  }

  /** The last word of a run of changes about a name. */
  function LastWord(changes: seq<Change>, n: string): Option<Provider> {
    if changes == [] then None
    else
      match changes[|changes| - 1]
      case Register(p) => if p.name == n then Some(p) else LastWord(changes[..|changes| - 1], n)
      case Unregister(name) => if name == n then None else LastWord(changes[..|changes| - 1], n)
  }

  function Once(r: Reg, change: Change): Reg {
    match change
    case Register(p) => Registered(r, p)
    case Unregister(name) => Unregistered(r, name)
  }

  lemma {:induction false} ChangedSnoc(r: Reg, changes: seq<Change>, last: Change)
    ensures Changed(r, changes + [last]) == Once(Changed(r, changes), last)
    decreases |changes|
  {
    if changes == [] {
      assert [] + [last] == [last] && [last][1..] == [];
    } else {
      assert (changes + [last])[0] == changes[0] && (changes + [last])[1..] == changes[1..] + [last];
      ChangedSnoc(Once(r, changes[0]), changes[1..], last);
    }
  }

  /** After any changes at all, careful or not, a name stands for the object it was last registered with. */
  lemma {:induction false} DictionaryIsLastWord(changes: seq<Change>, n: string)
    ensures UniqueNames(Changed(EMPTY_REG, changes).providers)
    ensures Find(Changed(EMPTY_REG, changes).providers, n) == LastWord(changes, n)
  {
    if changes != [] {
      var front, last := changes[..|changes| - 1], changes[|changes| - 1];
      var before := Changed(EMPTY_REG, front);
      assert changes == front + [last];
      ChangedSnoc(EMPTY_REG, front, last);
      DictionaryIsLastWord(front, n);
      match last
      case Register(p) => PutKeepsUnique(before.providers, p);
      case Unregister(name) =>
        FindMeans(before.providers, name);
        if Find(before.providers, name).Some? {
          var p := Find(before.providers, name).value;
          WithoutMembers(before.providers, p);
          FindAfterWithout(before.providers, p, n);
        }
    }
  }

  // ---------------------------------------------------------------------------
  // The lookups
  // ---------------------------------------------------------------------------

  /** Where the dictionary and a lookup both have two providers, they have them in the same order. */
  ghost predicate InDictionaryOrder(bucket: seq<Provider>, providers: seq<Provider>) {
    forall i, j :: 0 <= i < j < |bucket| ==> Precedes(providers, bucket[i], bucket[j])
  }

  ghost predicate Precedes(providers: seq<Provider>, a: Provider, b: Provider) {
    exists i, j :: 0 <= i < j < |providers| && providers[i] == a && providers[j] == b
  }

  lemma PrecedesShifts(providers: seq<Provider>, a: Provider, b: Provider)
    requires providers != []
    ensures Precedes(providers[1..], a, b) ==> Precedes(providers, a, b)
    ensures a == providers[0] && b in providers[1..] ==> Precedes(providers, a, b)
  {
    if i, j :| 0 <= i < j < |providers[1..]| && providers[1..][i] == a && providers[1..][j] == b {
      assert providers[i + 1] == a && providers[j + 1] == b;
    }
    if a == providers[0] && b in providers[1..] {
      var j :| 0 <= j < |providers[1..]| && providers[1..][j] == b;
      assert providers[j + 1] == b;
    }
  }

  lemma {:induction false} ScanInOrder(providers: seq<Provider>, wanted: Provider -> bool)
    ensures InDictionaryOrder(Scan(providers, wanted), providers)
  {
    if providers != [] {
      var rest, bucket := Scan(providers[1..], wanted), Scan(providers, wanted);
      ScanInOrder(providers[1..], wanted);
      ScanMembers(providers[1..], wanted);
      forall i, j | 0 <= i < j < |bucket|
        ensures Precedes(providers, bucket[i], bucket[j])
      {
        PrecedesShifts(providers, bucket[i], bucket[j]);
        if wanted(providers[0]) {
          assert bucket[j] == rest[j - 1] && (i > 0 ==> bucket[i] == rest[i - 1]);
        } else {
          assert bucket == rest;
        }
      }
    }
  }

  /** After careful changes a lookup has exactly the providers registered last under their names that fit, in order. */
  lemma LookupsMean(changes: seq<Change>, model: string, tier: ModelTier, p: Provider)
    requires Careful(EMPTY_REG, changes)
    ensures var r := Changed(EMPTY_REG, changes);
            && (p in Bucket(r.byModel, model) <==>
                  LastWord(changes, p.name) == Some(p) && exists i :: 0 <= i < |p.specs| && p.specs[i].name == model)
            && (p in Bucket(r.byTier, tier) <==>
                  LastWord(changes, p.name) == Some(p)
                  && (p.defaultTier == tier || exists i :: 0 <= i < |p.specs| && p.specs[i].tier == tier))
            && InDictionaryOrder(Bucket(r.byModel, model), r.providers) && InDictionaryOrder(Bucket(r.byTier, tier), r.providers)
  {
    var r := Changed(EMPTY_REG, changes);
    CarefulRunsAgree(EMPTY_REG, changes);
    DictionaryIsLastWord(changes, p.name);
    FindMeans(r.providers, p.name);
    FoundByName(r.providers, p);
    ScanMembers(r.providers, ServesModel(model));
    ScanMembers(r.providers, IsInTier(tier));
    ScanInOrder(r.providers, ServesModel(model));
    ScanInOrder(r.providers, IsInTier(tier));
    SpecsMean(p, model, tier);
  }

  lemma FoundByName(providers: seq<Provider>, p: Provider)
    requires UniqueNames(providers)
    ensures p in providers <==> Find(providers, p.name) == Some(p)
  {
    FindMeans(providers, p.name);
  }

  lemma SpecsMean(p: Provider, model: string, tier: ModelTier)
    ensures ServesModel(model)(p) <==> exists i :: 0 <= i < |p.specs| && p.specs[i].name == model
    ensures IsInTier(tier)(p) <==> p.defaultTier == tier || exists i :: 0 <= i < |p.specs| && p.specs[i].tier == tier
  {
    forall i | 0 <= i < |p.specs|
      ensures p.Models()[i] == p.specs[i].name && p.Tiers()[i] == p.specs[i].tier
    {}
  }
}
