/**
 * The payment processor's webhook: after the signature check, one of three
 * event kinds updates the `users` table and every other kind is acknowledged
 * without effect. The HTTP layer and the processor's SDK are abstracted away:
 * `signatureValid` stands for the SDK's verdict on the payload and its
 * signature header (a payload the SDK cannot parse is refused the same way),
 * and the event arrives already decoded into the fields the handler reads.
 */
module Webhook {
  import opened Wrappers
  import opened PyInt
  import opened Users

  /** The event kinds the handler tells apart, with the optional fields it reads. */
  datatype Event =
    | CheckoutCompleted(clientReferenceId: Option<string>, customer: Option<string>)
    | InvoicePaymentSucceeded(customer: Option<string>)
    | SubscriptionDeleted(customer: Option<string>)
    | OtherEvent

  const StatusOk: int := 200
  const StatusBadRequest: int := 400

  /**
   * `stripe_webhook`. `up` says whether the database connections opened while
   * handling the event succeed; a failed one leaves the table as it was and
   * does not change the status.
   *
   * Checkout activates the referenced user for one month under the event's
   * customer id; a reference that `int()` refuses raises inside the handler
   * and answers 400. Renewal activates for one month, keeping the stored
   * customer id, the user whose customer id the event carries; deletion
   * clears that user's flag. An event whose customer matches no row changes
   * nothing.
   */
  method StripeWebhook(store: UserStore, signatureValid: bool, event: Event, now: int, up: bool)
    returns (status: int)
    modifies store
    ensures status == StatusOk || status == StatusBadRequest
    ensures !signatureValid ==> status == StatusBadRequest && store.users == old(store.users)
    ensures signatureValid && event.OtherEvent? ==> status == StatusOk && store.users == old(store.users)
    ensures signatureValid && event.CheckoutCompleted? ==>
      var ref := event.clientReferenceId;
      if !Truthy(ref) then
        status == StatusOk && store.users == old(store.users)
      else if ParseInt(ref.value).None? then
        status == StatusBadRequest && store.users == old(store.users)
      else
        && status == StatusOk
        && store.users == if up then Activated(old(store.users), ParseInt(ref.value).value, ExpiryAfter(now, 1), event.customer)
                          else old(store.users)
    ensures signatureValid && event.InvoicePaymentSucceeded? ==>
      && status == StatusOk
      && if up && exists u :: Resolves(old(store.users), event.customer, u) then
           exists u :: Resolves(old(store.users), event.customer, u)
                       && store.users == Activated(old(store.users), u, ExpiryAfter(now, 1), None)
         else
           store.users == old(store.users)
    ensures signatureValid && event.SubscriptionDeleted? ==>
      && status == StatusOk
      && if up && exists u :: Resolves(old(store.users), event.customer, u) then
           exists u :: Resolves(old(store.users), event.customer, u)
                       && store.users == Deactivated(old(store.users), u)
         else
           store.users == old(store.users)
    ensures WellFormed(old(store.users)) ==> WellFormed(store.users)
  {
    if !signatureValid {
      return StatusBadRequest;
    }
    match event {
      case CheckoutCompleted(ref, customer) =>
        if Truthy(ref) {
          var id := ParseInt(ref.value);
          if id.None? {
            return StatusBadRequest;
          }
          OperationsPreserveWellFormed(store.users, id.value, None, None, now, ExpiryAfter(now, 1), customer, up);
          var _ := store.ActivatePremium(id.value, 1, customer, now, up);
        }
      case InvoicePaymentSucceeded(customer) =>
        var found := store.FindByCustomer(customer, up);
        if found.Some? {
          OperationsPreserveWellFormed(store.users, found.value, None, None, now, ExpiryAfter(now, 1), None, up);
          var _ := store.ActivatePremium(found.value, 1, None, now, up);
        }
      case SubscriptionDeleted(customer) =>
        var found := store.FindByCustomer(customer, up);
        if found.Some? {
          OperationsPreserveWellFormed(store.users, found.value, None, None, now, now, None, up);
          var _ := store.DeactivatePremium(found.value, up);
        }
      case OtherEvent =>
    }
    status := StatusOk;
  }
}
