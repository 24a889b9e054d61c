/**
 * One registry instance: the authenticators it owns, selection over them, and
 * the fan-out of the two lifecycle calls to the authenticators of its map
 * (`DefaultPaymentAuthenticatorRegistry`, its instance part).
 */
module AuthenticatorRegistry {
  import opened Wrappers
  import opened AuthenticatorSelection

  /** Stands for an `ActivityResultCaller` handed in by the host. */
  datatype ActivityResultCaller = ActivityResultCaller(handle: nat)

  /** Stands for an `ActivityResultCallback<PaymentFlowResult.Unvalidated>`. */
  datatype ActivityResultCallback = ActivityResultCallback(handle: nat)

  /** A lifecycle call an authenticator can receive from its registry. */
  datatype LifecycleCall =
    | NewActivityResultCaller(caller: ActivityResultCaller, callback: ActivityResultCallback)
    | LauncherInvalidated

  /**
   * A `PaymentAuthenticator`. What it does with a lifecycle call is its own
   * business; the model keeps the calls it has received, in order.
   */
  class PaymentAuthenticator {
    var received: seq<LifecycleCall>

    constructor ()
      ensures received == []
    {
      received := [];
    }
  }

  /** `n` copies of `c`. */
  function Repeat(c: LifecycleCall, n: nat): (r: seq<LifecycleCall>)
    ensures |r| == n
    ensures forall i :: 0 <= i < n ==> r[i] == c
  {
    if n == 0 then [] else Repeat(c, n - 1) + [c]
  }

  /** The keys among `done` under which `m` holds `a`. */
  function KeysHolding<K, V(==)>(m: map<K, V>, done: set<K>, a: V): set<K>
  {
    set k | k in done && k in m && m[k] == a
  }

  /**
   * How many times a `forEach` over `m.values` visits `a`: once per key that
   * maps to it (a map may hold one authenticator under several kinds).
   */
  function Multiplicity<K, V(==)>(m: map<K, V>, a: V): nat
  {
    |KeysHolding(m, m.Keys, a)|
  }

  /** Visiting one more key `k` adds one visit to `m[k]` and none to any other value. */
  lemma {:induction false} VisitOneMoreKey<K, V>(m: map<K, V>, done: set<K>, k: K, a: V)
    requires k in m && k !in done
    ensures |KeysHolding(m, done + {k}, a)|
            == |KeysHolding(m, done, a)| + (if m[k] == a then 1 else 0)
  {
    if m[k] == a {
      assert KeysHolding(m, done + {k}, a) == KeysHolding(m, done, a) + {k};
    } else {
      assert KeysHolding(m, done + {k}, a) == KeysHolding(m, done, a);
    }
  }

  /** An authenticator is visited by the fan-out if and only if it is a value of the map. */
  lemma {:induction false} VisitedIffMapValue<K, V>(m: map<K, V>, a: V)
    ensures Multiplicity(m, a) > 0 <==> a in m.Values
  {
    if a in m.Values {
      var k :| k in m && m[k] == a;
      assert k in KeysHolding(m, m.Keys, a);
    } else {
      assert KeysHolding(m, m.Keys, a) == {};
    }
  }

  /** No two kinds share an authenticator. */
  ghost predicate Injective<K, V>(m: map<K, V>)
  {
    forall k1, k2 :: k1 in m && k2 in m && m[k1] == m[k2] ==> k1 == k2
  }

  /** When every kind has its own authenticator, each value is visited exactly once. */
  lemma {:induction false} VisitedOnceWhenInjective<K, V>(m: map<K, V>, a: V)
    requires Injective(m) && a in m.Values
    ensures Multiplicity(m, a) == 1
  {
    var k :| k in m && m[k] == a;
    assert KeysHolding(m, m.Keys, a) == {k};
  }

  /**
   * `DefaultPaymentAuthenticatorRegistry`: its constructor parameters are all
   * `private val`s, so they are constants here. `id` is the
   * `paymentAuthenticatorRegistryId`.
   */
  class DefaultPaymentAuthenticatorRegistry {
    const noOpIntentAuthenticator: PaymentAuthenticator
    const sourceAuthenticator: PaymentAuthenticator
    const paymentAuthenticatorMap: map<NextActionKind, PaymentAuthenticator>
    const id: int

    constructor (
      noOp: PaymentAuthenticator, source: PaymentAuthenticator,
      authenticators: map<NextActionKind, PaymentAuthenticator>, registryId: int
    )
      ensures noOpIntentAuthenticator == noOp && sourceAuthenticator == source
      ensures paymentAuthenticatorMap == authenticators && id == registryId
    {
      noOpIntentAuthenticator := noOp;
      sourceAuthenticator := source;
      paymentAuthenticatorMap := authenticators;
      id := registryId;
    }

    /** The authenticators whose received calls a fan-out may change. */
    function Notified(): set<PaymentAuthenticator>
    {
      set a | a in paymentAuthenticatorMap.Values
    }

    /** `getAuthenticator`: selection over this registry's own authenticators. */
    function GetAuthenticator(x: Authenticatable): (r: Result<PaymentAuthenticator, SelectionError>)
      ensures r == SelectAuthenticator(x, noOpIntentAuthenticator, sourceAuthenticator, paymentAuthenticatorMap)
      ensures r.Failure? <==> x.Other?
      ensures r.Success? ==> r.value == noOpIntentAuthenticator || r.value == sourceAuthenticator
                             || r.value in Notified()
    {
      SelectAuthenticator(x, noOpIntentAuthenticator, sourceAuthenticator, paymentAuthenticatorMap)
    }

    /** `onNewActivityResultCaller`: forward the caller and callback to every map value. */
    method OnNewActivityResultCaller(caller: ActivityResultCaller, callback: ActivityResultCallback)
      modifies Notified()
      ensures forall a :: a in Notified() ==>
        a.received == old(a.received) + Repeat(NewActivityResultCaller(caller, callback), Multiplicity(paymentAuthenticatorMap, a))
      ensures noOpIntentAuthenticator !in Notified() ==>
        noOpIntentAuthenticator.received == old(noOpIntentAuthenticator.received)
      ensures sourceAuthenticator !in Notified() ==>
        sourceAuthenticator.received == old(sourceAuthenticator.received)
    {
      FanOut(NewActivityResultCaller(caller, callback));
    }

    /** `onLauncherInvalidated`: tell every map value that the launcher is gone. */
    method OnLauncherInvalidated()
      modifies Notified()
      ensures forall a :: a in Notified() ==>
        a.received == old(a.received) + Repeat(LauncherInvalidated, Multiplicity(paymentAuthenticatorMap, a))
      ensures noOpIntentAuthenticator !in Notified() ==>
        noOpIntentAuthenticator.received == old(noOpIntentAuthenticator.received)
      ensures sourceAuthenticator !in Notified() ==>
        sourceAuthenticator.received == old(sourceAuthenticator.received)
    {
      FanOut(LauncherInvalidated);
    }

    /**
     * The `paymentAuthenticatorMap.values.forEach` loop shared by both calls:
     * every entry of the map passes `c` to its authenticator once.
     */
    method FanOut(c: LifecycleCall)
      modifies Notified()
      ensures forall a :: a in Notified() ==>
        a.received == old(a.received) + Repeat(c, Multiplicity(paymentAuthenticatorMap, a))
    {
      var pending := paymentAuthenticatorMap.Keys;
      while pending != {}
        invariant pending <= paymentAuthenticatorMap.Keys
        invariant forall a :: a in Notified() ==>
          a.received == old(a.received)
            + Repeat(c, |KeysHolding(paymentAuthenticatorMap, paymentAuthenticatorMap.Keys - pending, a)|)
        decreases pending
      {
        var k :| k in pending;
        var target := paymentAuthenticatorMap[k];
        ghost var done := paymentAuthenticatorMap.Keys - pending;
        forall a | a in Notified()
          ensures |KeysHolding(paymentAuthenticatorMap, done + {k}, a)|
                  == |KeysHolding(paymentAuthenticatorMap, done, a)| + (if target == a then 1 else 0)
        {
          VisitOneMoreKey(paymentAuthenticatorMap, done, k, a);
        }
        target.received := target.received + [c];
        pending := pending - {k};
        assert paymentAuthenticatorMap.Keys - pending == done + {k};
      }
      assert paymentAuthenticatorMap.Keys - pending == paymentAuthenticatorMap.Keys;
    }
  }

  /**
   * A registry whose web authenticator is bound to two kinds: invalidating the
   * launcher reaches it twice, the 3DS2 authenticator once, and the no-op and
   * source authenticators not at all.
   */
  method FanOutScenario()
  {
    var noOp := new PaymentAuthenticator();
    var source := new PaymentAuthenticator();
    var threeDs2 := new PaymentAuthenticator();
    var web := new PaymentAuthenticator();
    var m := map[Use3DS2 := threeDs2, RedirectToUrl := web, AlipayRedirect := web];
    var registry := new DefaultPaymentAuthenticatorRegistry(noOp, source, m, 1);
    assert KeysHolding(m, m.Keys, threeDs2) == {Use3DS2};
    assert KeysHolding(m, m.Keys, web) == {RedirectToUrl, AlipayRedirect};
    registry.OnLauncherInvalidated();
    assert threeDs2.received == [LauncherInvalidated];
    assert web.received == [LauncherInvalidated, LauncherInvalidated];
    assert noOp.received == [] && source.received == [];
  }
}
