/**
 * The companion object of `DefaultPaymentAuthenticatorRegistry`: the
 * process-wide id counter `CURRENT_ID`, the cache `staticCache` of live
 * registries, `createInstance` and `retrieveInstance`.
 *
 * `staticCache` is a set backed by a `WeakHashMap`, so the garbage collector
 * removes a registry once nothing else holds it. Here the cache is a sequence
 * without repetitions (the set, in iteration order) and collection is the
 * explicit operation `Drop`.
 */
module RegistryCache {
  import opened Wrappers
  import opened AuthenticatorSelection
  import opened AuthenticatorRegistry

  /** What `retrieveInstance` computes: the first registry of `cache` whose id is `id`. */
  function Find(
    cache: seq<DefaultPaymentAuthenticatorRegistry>, id: int
  ): (r: Option<DefaultPaymentAuthenticatorRegistry>)
    ensures r.Some? ==> r.value in cache && r.value.id == id
    ensures r.None? <==> forall c :: c in cache ==> c.id != id
    ensures r.Some? ==> exists i :: 0 <= i < |cache| && cache[i] == r.value
                                    && forall j :: 0 <= j < i ==> cache[j].id != id
  {
    if cache == [] then None
    else if cache[0].id == id then Some(cache[0])
    else Find(cache[1..], id)
  }

  /** No two registries of `s` share an id. */
  ghost predicate DistinctIds(s: seq<DefaultPaymentAuthenticatorRegistry>)
  {
    forall i, j :: 0 <= i < j < |s| ==> s[i].id != s[j].id
  }

  /** No registry occurs twice in `s`: `s` lists a set. */
  ghost predicate NoDuplicates(s: seq<DefaultPaymentAuthenticatorRegistry>)
  {
    forall i, j :: 0 <= i < j < |s| ==> s[i] != s[j]
  }

  /**
   * `created` lists every registry `createInstance` has made, in order, and
   * `currentId` is the next id to hand out: the i-th registry got id i + 1,
   * because `CURRENT_ID` starts at 1 and grows by one per creation.
   */
  ghost predicate IssuedInOrder(created: seq<DefaultPaymentAuthenticatorRegistry>, currentId: int)
  {
    && currentId == |created| + 1
    && forall i :: 0 <= i < |created| ==> created[i].id == i + 1
  }

  /** A created registry is found in `created` at the position its id names. */
  lemma IdLocatesRegistry(
    created: seq<DefaultPaymentAuthenticatorRegistry>, currentId: int, c: DefaultPaymentAuthenticatorRegistry
  )
    requires IssuedInOrder(created, currentId) && c in created
    ensures 1 <= c.id < currentId && created[c.id - 1] == c
  {
  }

  /** Ids handed out are strictly increasing, hence pairwise distinct. */
  lemma {:induction false} IssuedIdsIncrease(
    created: seq<DefaultPaymentAuthenticatorRegistry>, currentId: int, i: int, j: int
  )
    requires IssuedInOrder(created, currentId) && 0 <= i < j < |created|
    ensures 1 <= created[i].id < created[j].id < currentId
  {
  }

  /** A cache holding only created registries, each once, holds each id at most once. */
  lemma {:induction false} CachedIdsDistinct(
    created: seq<DefaultPaymentAuthenticatorRegistry>, currentId: int, cache: seq<DefaultPaymentAuthenticatorRegistry>
  )
    requires IssuedInOrder(created, currentId)
    requires forall c :: c in cache ==> c in created
    requires NoDuplicates(cache)
    ensures DistinctIds(cache)
  {
    forall i, j | 0 <= i < j < |cache|
      ensures cache[i].id != cache[j].id
    {
      IdLocatesRegistry(created, currentId, cache[i]);
      IdLocatesRegistry(created, currentId, cache[j]);
    }
  }

  /** Adding a registry at the end leaves every earlier match in place. */
  lemma {:induction false} FindAfterAppend(
    cache: seq<DefaultPaymentAuthenticatorRegistry>, r: DefaultPaymentAuthenticatorRegistry, id: int
  )
    ensures Find(cache + [r], id)
            == if Find(cache, id).Some? then Find(cache, id)
               else if r.id == id then Some(r) else None
  {
    if cache == [] {
      assert cache + [r] == [r];
    } else {
      assert (cache + [r])[1..] == cache[1..] + [r];
      FindAfterAppend(cache[1..], r, id);
    }
  }

  /** `s` with `r` taken out (`staticCache` losing a collected registry). */
  function Remove(
    s: seq<DefaultPaymentAuthenticatorRegistry>, r: DefaultPaymentAuthenticatorRegistry
  ): (t: seq<DefaultPaymentAuthenticatorRegistry>)
    ensures forall c :: c in t ==> c in s && c != r
    ensures forall c :: c in s && c != r ==> c in t
    ensures |t| <= |s|
  {
    if s == [] then []
    else if s[0] == r then Remove(s[1..], r)
    else [s[0]] + Remove(s[1..], r)
  }

  /** Taking `r` out preserves `NoDuplicates`. */
  lemma {:induction false} RemoveKeepsNoDuplicates(
    s: seq<DefaultPaymentAuthenticatorRegistry>, r: DefaultPaymentAuthenticatorRegistry
  )
    requires NoDuplicates(s)
    ensures NoDuplicates(Remove(s, r))
  {
    if s != [] {
      RemoveKeepsNoDuplicates(s[1..], r);
      var t := Remove(s[1..], r);
      if s[0] != r {
        assert s[0] !in t;
        assert Remove(s, r) == [s[0]] + t;
      }
    }
  }

  /** Taking `r` out changes no lookup except one that found `r`. */
  lemma {:induction false} FindAfterRemove(
    s: seq<DefaultPaymentAuthenticatorRegistry>, r: DefaultPaymentAuthenticatorRegistry, id: int
  )
    requires DistinctIds(s)
    ensures Find(Remove(s, r), id) == if Find(s, id) == Some(r) then None else Find(s, id)
  {
  }

  /** The companion object: `CURRENT_ID` and `staticCache`. */
  class RegistryCompanion {
    var currentId: int
    var cache: seq<DefaultPaymentAuthenticatorRegistry>
    /** Every registry `CreateInstance` has made, in order of creation. */
    ghost var created: seq<DefaultPaymentAuthenticatorRegistry>

    ghost predicate Valid()
      reads this
    {
      && IssuedInOrder(created, currentId)
      && (forall c :: c in cache ==> c in created)
      && NoDuplicates(cache)
    }

    /** The companion's state at class load: `CURRENT_ID = 1` and an empty cache. */
    constructor ()
      ensures Valid()
      ensures currentId == 1 && cache == [] && created == []
    {
      currentId := 1;
      cache := [];
      created := [];
    }

    /**
     * `retrieveInstance`: scan the cache and return the first registry whose
     * id matches, or `null` when none does.
     */
    method RetrieveInstance(id: int) returns (r: DefaultPaymentAuthenticatorRegistry?)
      ensures r != null ==> r in cache && r.id == id
      ensures r == null <==> forall c :: c in cache ==> c.id != id
      ensures r == null <==> Find(cache, id).None?
      ensures r != null ==> Find(cache, id) == Some(r)
    {
      var i := 0;
      while i < |cache|
        invariant 0 <= i <= |cache|
        invariant forall j :: 0 <= j < i ==> cache[j].id != id
      {
        if cache[i].id == id {
          return cache[i];
        }
        i := i + 1;
      }
      return null;
    }

    /**
     * `createInstance`: build a registry over the given authenticators (the
     * dependency graph's output) with id `CURRENT_ID`, advance the counter
     * and put the registry in the cache.
     */
    method CreateInstance(
      noOp: PaymentAuthenticator, source: PaymentAuthenticator,
      authenticators: map<NextActionKind, PaymentAuthenticator>
    ) returns (r: DefaultPaymentAuthenticatorRegistry)
      requires Valid()
      modifies this
      ensures Valid()
      ensures fresh(r)
      ensures r.noOpIntentAuthenticator == noOp && r.sourceAuthenticator == source
      ensures r.paymentAuthenticatorMap == authenticators
      ensures r.id == old(currentId) && currentId == old(currentId) + 1
      ensures cache == old(cache) + [r] && created == old(created) + [r]
      // the new id was never handed out before
      ensures forall c :: c in old(created) ==> c.id < r.id
      // the new registry can be retrieved by its id; all other lookups are unchanged
      ensures Find(cache, r.id) == Some(r)
      ensures forall id :: id != r.id ==> Find(cache, id) == Find(old(cache), id)
    {
      r := new DefaultPaymentAuthenticatorRegistry(noOp, source, authenticators, currentId);
      currentId := currentId + 1;
      forall c | c in created ensures c.id < r.id {
        IdLocatesRegistry(created, currentId - 1, c);
      }
      ghost var before := cache;
      cache := cache + [r];
      created := created + [r];
      forall id {
        FindAfterAppend(before, r, id);
      }
      assert Find(before, r.id).None?;
    }

    /**
     * The garbage collector clearing `r` from the weak cache. Afterwards `r`
     * can no longer be retrieved; every other lookup is unchanged.
     */
    method Drop(r: DefaultPaymentAuthenticatorRegistry)
      requires Valid()
      modifies this
      ensures Valid()
      ensures currentId == old(currentId) && created == old(created)
      ensures cache == Remove(old(cache), r)
      ensures r in old(created) ==> Find(cache, r.id).None?
      ensures forall id :: Find(cache, id)
                           == if Find(old(cache), id) == Some(r) then None else Find(old(cache), id)
    {
      CachedIdsDistinct(created, currentId, cache);
      RemoveKeepsNoDuplicates(cache, r);
      if r in created {
        DroppedIsGone(created, currentId, cache, r);
      }
      ghost var before := cache;
      cache := Remove(cache, r);
      forall id {
        FindAfterRemove(before, r, id);
      }
    }
  }

  /** Once a created registry is out of the cache, no cached registry answers to its id. */
  lemma {:induction false} DroppedIsGone(
    created: seq<DefaultPaymentAuthenticatorRegistry>, currentId: int,
    cache: seq<DefaultPaymentAuthenticatorRegistry>, r: DefaultPaymentAuthenticatorRegistry
  )
    requires IssuedInOrder(created, currentId)
    requires forall c :: c in cache ==> c in created
    requires r in created
    ensures Find(Remove(cache, r), r.id).None?
  {
  }

  /**
   * While `r` has not been dropped, every lookup by its id finds it: a
   * retrieval after `createInstance` succeeds as long as the registry lives.
   */
  lemma {:induction false} CachedRegistryIsRetrievable(
    created: seq<DefaultPaymentAuthenticatorRegistry>, currentId: int, cache: seq<DefaultPaymentAuthenticatorRegistry>, r: DefaultPaymentAuthenticatorRegistry
  )
    requires IssuedInOrder(created, currentId)
    requires forall c :: c in cache ==> c in created
    requires NoDuplicates(cache)
    requires r in cache
    ensures Find(cache, r.id) == Some(r)
  {
  }

  /**
   * A host process creating two registries, retrieving the first, losing it
   * to the collector and retrieving again, as a client of the contracts above.
   */
  method CreateRetrieveDropScenario()
  {
    var companion := new RegistryCompanion();
    var noOp := new PaymentAuthenticator();
    var source := new PaymentAuthenticator();
    var threeDs2 := new PaymentAuthenticator();
    var first := companion.CreateInstance(noOp, source, map[Use3DS2 := threeDs2]);
    var second := companion.CreateInstance(noOp, source, map[Use3DS2 := threeDs2]);
    assert first.id == 1 && second.id == 2;
    var found := companion.RetrieveInstance(1);
    assert found == first;
    companion.Drop(first);
    found := companion.RetrieveInstance(1);
    assert found == null;
    found := companion.RetrieveInstance(2);
    assert found == second;
    found := companion.RetrieveInstance(3);
    assert found == null;
  }
}
