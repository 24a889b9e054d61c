/**
 * Authenticator selection: which authenticator a registry hands out for a
 * payment object (`DefaultPaymentAuthenticatorRegistry.getAuthenticator`).
 *
 * The source dispatches on runtime types (`is StripeIntent`, `is Source`) and
 * looks the next action up by its Java class. Here the payment object is a
 * closed tagged union and the class of the next action is a `NextActionKind`.
 * Selection is generic in the authenticator type `A`, so that it stays a pure
 * function; the registry instantiates it with its authenticator objects.
 */
module AuthenticatorSelection {
  import opened Wrappers

  /** The subclasses of `StripeIntent.NextActionData`, one constructor per class. */
  datatype NextActionKind =
    | Use3DS1
    | Use3DS2
    | RedirectToUrl
    | AlipayRedirect
    | DisplayOxxoDetails
    | BlikAuthorize
    | WeChatPayRedirect

  /**
   * What can be passed to `getAuthenticator`: a `StripeIntent` (whether it
   * requires action, and the kind of its optional `nextActionData`), a
   * `Source`, or any other object.
   */
  datatype Authenticatable =
    | Intent(requiresAction: bool, next: Option<NextActionKind>)
    | Source
    | Other

  /** The `error(...)` raised for an object that is neither an intent nor a source. */
  datatype SelectionError = NoSuitableAuthenticator

  /**
   * The authenticator for `x`, given the registry's no-op authenticator, its
   * source authenticator and its map from next-action kind to authenticator.
   */
  function SelectAuthenticator<A(==)>(
    x: Authenticatable, noOp: A, source: A, authenticators: map<NextActionKind, A>
  ): (r: Result<A, SelectionError>)
    // only an object that is neither an intent nor a source is refused
    ensures r.Failure? <==> x.Other?
    // whatever is handed out is one of the registry's own authenticators
    ensures r.Success? ==> r.value == noOp || r.value == source || r.value in authenticators.Values
    // an intent that needs no action gets the no-op authenticator, whatever its next action
    ensures x.Intent? && !x.requiresAction ==> r == Success(noOp)
    // an intent that needs action and whose next action kind is mapped gets exactly that entry
    ensures x.Intent? && x.requiresAction && x.next.Some? && x.next.value in authenticators
            ==> r == Success(authenticators[x.next.value])
    // a missing next action, or one of an unmapped kind, falls back to the no-op authenticator
    ensures x.Intent? && x.requiresAction && (x.next.None? || x.next.value !in authenticators)
            ==> r == Success(noOp)
    // a source always gets the source authenticator
    ensures x.Source? ==> r == Success(source)
  {
    match x
    case Intent(requiresAction, next) =>
      if !requiresAction then Success(noOp)
      else if next.Some? && next.value in authenticators then Success(authenticators[next.value])
      else Success(noOp)
    case Source => Success(source)
    case Other => Failure(NoSuitableAuthenticator)
  }

  /**
   * Registering an authenticator for one more kind `k` changes the selection
   * only for intents that require action and whose next action is of kind `k`;
   * every other object is dispatched as before.
   */
  lemma {:induction false} ExtendingMapOnlyAffectsThatKind<A>(
    x: Authenticatable, noOp: A, source: A, authenticators: map<NextActionKind, A>,
    k: NextActionKind, a: A
  )
    ensures SelectAuthenticator(x, noOp, source, authenticators[k := a])
            == if x.Intent? && x.requiresAction && x.next == Some(k) then Success(a)
               else SelectAuthenticator(x, noOp, source, authenticators)
  {
  }
}
