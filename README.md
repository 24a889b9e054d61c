# Payment authenticator registry

A Dafny model of `DefaultPaymentAuthenticatorRegistry` from the Stripe Android
SDK: the object that decides which `PaymentAuthenticator` handles a payment
object, forwards the host's activity-result lifecycle to its authenticators,
and, through its companion object, hands every registry a process-wide id and
keeps the live registries in a cache so that a recreated activity can find its
registry again by that id.

- `wrappers.dfy` — `Option` (Kotlin's `null`) and `Result` (a thrown error).
- `selection.dfy` — module `AuthenticatorSelection`: payment objects as a
  closed union (`Intent`, `Source`, `Other`), next-action classes as
  `NextActionKind`, and `getAuthenticator`'s decision as the pure function
  `SelectAuthenticator`, generic in the authenticator type.
- `registry.dfy` — module `AuthenticatorRegistry`: `PaymentAuthenticator`
  objects that record the lifecycle calls they receive, and the registry class
  with its four constructor values, `GetAuthenticator`,
  `OnNewActivityResultCaller` and `OnLauncherInvalidated`. The two lifecycle
  calls loop over the map's entries, as `paymentAuthenticatorMap.values.forEach`
  does; an authenticator bound under several kinds is visited once per kind.
- `cache.dfy` — module `RegistryCache`: the companion object as the class
  `RegistryCompanion` with `currentId` (`CURRENT_ID`) and `cache`
  (`staticCache`, a sequence without repetitions), plus a ghost list of every
  registry created. `RetrieveInstance` is the linear scan with early return,
  `CreateInstance` takes the counter value and advances it, and `Drop` stands
  for the garbage collector clearing a weak entry.

The class invariant `RegistryCompanion.Valid` says that the i-th registry
created carries id i + 1, that `currentId` is one past the last id handed out,
and that the cache holds only created registries, each once. From it follow
pairwise-distinct ids in the cache, retrieval of every cached registry by its
own id, and the fact that after `Drop(r)` nothing answers to `r.id`.

The design of this component says that the lifecycle calls reach every
authenticator the registry owns and that the fallback to the no-op
authenticator raises a telemetry event. The code forwards the calls to the
map's values only (the no-op and source authenticators are not told unless
they are also map values), and selection emits nothing. The model follows the
code.

## Model

| member | source | states |
|---|---|---|
| `AuthenticatorSelection.SelectAuthenticator` | payments-core/src/main/java/com/stripe/android/payments/core/authentication/DefaultPaymentAuthenticatorRegistry.kt:48-72 | Fails exactly for an object that is neither intent nor source; an intent needing no action gets the no-op authenticator whatever its next action; one needing action gets the map entry for its next-action kind, or the no-op authenticator when the next action is missing or its kind unmapped; a source gets the source authenticator; any result is one of the three owned sets of authenticators |
| `AuthenticatorSelection.ExtendingMapOnlyAffectsThatKind` | payments-core/src/main/java/com/stripe/android/payments/core/authentication/DefaultPaymentAuthenticatorRegistry.kt:56-59 | Binding kind k to an authenticator changes the selection only for intents that need action with a next action of kind k; all other objects are dispatched as before |
| `AuthenticatorRegistry.DefaultPaymentAuthenticatorRegistry.constructor` | payments-core/src/main/java/com/stripe/android/payments/core/authentication/DefaultPaymentAuthenticatorRegistry.kt:30-39 | The registry keeps the no-op authenticator, source authenticator, map and id it is given |
| `AuthenticatorRegistry.DefaultPaymentAuthenticatorRegistry.GetAuthenticator` | payments-core/src/main/java/com/stripe/android/payments/core/authentication/DefaultPaymentAuthenticatorRegistry.kt:48-72 | Selection over the registry's own authenticators: fails only for an unsupported object, and otherwise hands out its no-op, its source or one of its map's authenticators |
| `AuthenticatorRegistry.DefaultPaymentAuthenticatorRegistry.OnNewActivityResultCaller` | payments-core/src/main/java/com/stripe/android/payments/core/authentication/DefaultPaymentAuthenticatorRegistry.kt:74-81 | Every map value receives the same caller and callback once per key it is bound to, after what it had received; the no-op and source authenticators receive nothing unless they are map values; no other object changes |
| `AuthenticatorRegistry.DefaultPaymentAuthenticatorRegistry.OnLauncherInvalidated` | payments-core/src/main/java/com/stripe/android/payments/core/authentication/DefaultPaymentAuthenticatorRegistry.kt:83-87 | Every map value receives the invalidation once per key it is bound to; the no-op and source authenticators receive nothing unless they are map values; no other object changes |
| `AuthenticatorRegistry.DefaultPaymentAuthenticatorRegistry.FanOut` | payments-core/src/main/java/com/stripe/android/payments/core/authentication/DefaultPaymentAuthenticatorRegistry.kt:78-80 | The loop over the map's entries appends the call to each value's log as many times as keys hold that value, and changes nothing outside the map's values |
| `AuthenticatorRegistry.VisitOneMoreKey` | payments-core/src/main/java/com/stripe/android/payments/core/authentication/DefaultPaymentAuthenticatorRegistry.kt:84-86 | One more visited entry adds one delivery to its own authenticator and none to any other |
| `AuthenticatorRegistry.VisitedIffMapValue` | payments-core/src/main/java/com/stripe/android/payments/core/authentication/DefaultPaymentAuthenticatorRegistry.kt:74-87 | An authenticator receives a forwarded lifecycle call if and only if it is a value of the map |
| `AuthenticatorRegistry.VisitedOnceWhenInjective` | payments-core/src/main/java/com/stripe/android/payments/core/authentication/DefaultPaymentAuthenticatorRegistry.kt:74-87 | When no two kinds share an authenticator, each map value receives each forwarded call exactly once |
| `RegistryCache.Find` | payments-core/src/main/java/com/stripe/android/payments/core/authentication/DefaultPaymentAuthenticatorRegistry.kt:107-114 | A found registry is in the cache, has the id asked for and no earlier cached registry has it; nothing is found exactly when no cached registry has that id |
| `RegistryCache.RegistryCompanion.RetrieveInstance` | payments-core/src/main/java/com/stripe/android/payments/core/authentication/DefaultPaymentAuthenticatorRegistry.kt:107-114 | Returns a cached registry with the requested id, the first one, or null exactly when no cached registry has that id |
| `RegistryCache.RegistryCompanion.constructor` | payments-core/src/main/java/com/stripe/android/payments/core/authentication/DefaultPaymentAuthenticatorRegistry.kt:96-102 | The counter starts at 1 with an empty cache, and the class invariant holds |
| `RegistryCache.RegistryCompanion.CreateInstance` | payments-core/src/main/java/com/stripe/android/payments/core/authentication/DefaultPaymentAuthenticatorRegistry.kt:122-152 | The new registry is fresh, holds the given authenticators and the old counter value as id, which exceeds every id handed out before; the counter grows by one; the registry joins the cache, is retrieved by its id, and every other lookup is unchanged; the invariant is kept |
| `RegistryCache.RegistryCompanion.Drop` | payments-core/src/main/java/com/stripe/android/payments/core/authentication/DefaultPaymentAuthenticatorRegistry.kt:90-97 | The collected registry leaves the cache; a lookup that found it now finds nothing, every other lookup is unchanged, and the counter and invariant are kept |
| `RegistryCache.IdLocatesRegistry` | payments-core/src/main/java/com/stripe/android/payments/core/authentication/DefaultPaymentAuthenticatorRegistry.kt:146 | A created registry's id lies between 1 and the counter and names its position in order of creation |
| `RegistryCache.IssuedIdsIncrease` | payments-core/src/main/java/com/stripe/android/payments/core/authentication/DefaultPaymentAuthenticatorRegistry.kt:99-102 | Ids start at 1 and strictly increase with creation order, so they are pairwise distinct and below the counter |
| `RegistryCache.CachedIdsDistinct` | payments-core/src/main/java/com/stripe/android/payments/core/authentication/DefaultPaymentAuthenticatorRegistry.kt:96-102 | A cache of created registries, each held once, never holds two registries with one id |
| `RegistryCache.FindAfterAppend` | payments-core/src/main/java/com/stripe/android/payments/core/authentication/DefaultPaymentAuthenticatorRegistry.kt:150 | Adding a registry keeps every earlier match, and a lookup that found nothing now finds the new registry if the id is its own |
| `RegistryCache.Remove` | payments-core/src/main/java/com/stripe/android/payments/core/authentication/DefaultPaymentAuthenticatorRegistry.kt:94-97 | The cache without the collected registry holds exactly the other registries it held |
| `RegistryCache.RemoveKeepsNoDuplicates` | payments-core/src/main/java/com/stripe/android/payments/core/authentication/DefaultPaymentAuthenticatorRegistry.kt:96-97 | Removing a registry keeps the cache a set |
| `RegistryCache.FindAfterRemove` | payments-core/src/main/java/com/stripe/android/payments/core/authentication/DefaultPaymentAuthenticatorRegistry.kt:107-114 | With distinct ids, removing a registry makes its lookup find nothing and leaves all other lookups unchanged |
| `RegistryCache.DroppedIsGone` | payments-core/src/main/java/com/stripe/android/payments/core/authentication/DefaultPaymentAuthenticatorRegistry.kt:107-114 | Once a created registry has left the cache, a lookup by its id finds nothing, since no other registry was given that id |
| `RegistryCache.CachedRegistryIsRetrievable` | payments-core/src/main/java/com/stripe/android/payments/core/authentication/DefaultPaymentAuthenticatorRegistry.kt:148-151 | Under the companion's invariant, a registry still in the cache is what a lookup by its id returns |

## Left out

- Dependency injection: the Dagger component built in `createInstance` and the `authenticationComponent` field. `CreateInstance` takes the authenticators the component would supply and builds the registry from them; a failing component build is not modelled.
- Garbage collection: `staticCache` holds registries weakly; here the collector is the explicit `Drop`, and reachability is not modelled.
- Concurrency: `@Synchronized` on `createInstance` only serialises the counter and the cache; the model is sequential.
- RegistryCompanion.CreateInstance: does not model the 32-bit wrap-around of the Kotlin `Int` counter after 2^31 - 1 creations, which would break id uniqueness; ids are unbounded integers.
- Iteration order: `staticCache` and the map's `values` have no fixed order. The cache is a sequence in one order (with distinct ids the answer of a retrieval does not depend on it); the fan-out visits the map's keys in an unspecified order, and only each authenticator's own sequence of calls is modelled, not the interleaving between authenticators.
- What an authenticator does with a lifecycle call, and `authenticate` itself: they belong to the authenticators, which launch activities; an authenticator here only records the calls it receives.
- `Stripe3DS2Authenticator.kt` is not part of this model: it builds an argument bundle and starts an activity through foreign calls (transaction id generation, bundle encoding, request codes).
- `PaymentMethodsApiRepository.kt` is not part of this model: it is network I/O run concurrently, with failures turned into an empty list.
- `TestPaymentSheet3DS2.kt` is not part of this model: it is a UI test driving screens with sleeps.
- The kinds of next action are the known subclasses of `StripeIntent.NextActionData`; the map from kind to authenticator is an input, so no property depends on which kinds exist.
