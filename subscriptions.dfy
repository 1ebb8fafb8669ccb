/** The `POST /webhooks/subscriptions` handler: verify the delivery when an
    endpoint secret is configured, then react to the four
    `customer.subscription.*` events by calling `onSubscriptionChanged` for
    subscriptions this deployment has saved. */
module SubscriptionWebhooks {
  import opened StripeTypes
  import opened Webhooks

  /** The cases of the handler's `switch (event?.type)`; all four lead to the same action. */
  const SubscriptionEventTypes: set<string> := {
    "customer.subscription.trial_will_end",
    "customer.subscription.deleted",
    "customer.subscription.created",
    "customer.subscription.updated"
  }

  /** One delivery. `constructEvent` and `getSubscription` stand for the Stripe
      SDK's verifier and the host's lookup; `calls` records every call made to
      them and to `onSubscriptionChanged`, in order. */
  method HandleSubscriptionWebhook(req: Request, endpointSecret: Option<string>,
                                   constructEvent: EventVerifier, getSubscription: SubscriptionLookup)
    returns (statusCode: int, calls: seq<Call>)
    // verification sees the raw body, the header value and the secret, and comes first
    ensures SecretConfigured(endpointSecret) ==>
      |calls| >= 1 && calls[0] == ConstructEvent(req.body, SignatureHeader(req), endpointSecret.value)
    // without a secret `event` stays undefined and nothing at all is called
    ensures !SecretConfigured(endpointSecret) ==> calls == []
    // exactly one status: 400 for a failed verification, 200 on every other path
    ensures statusCode == if VerificationFailed(req, endpointSecret, constructEvent) then StatusBadRequest else StatusOk
    // the lookup happens once, keyed on the request, exactly for a verified subscription event
    ensures Lookups(calls) == if Dispatched(req, endpointSecret, constructEvent, SubscriptionEventTypes) then [req] else []
    // the callback fires once, with `event.data.object`, exactly when the lookup also found a record
    ensures StateUpdates(calls) ==
      if Dispatched(req, endpointSecret, constructEvent, SubscriptionEventTypes) && getSubscription(req).Some?
      then [DeliveredEvent(req, endpointSecret, constructEvent).value.dataObject]
      else []
    ensures forall c | c in calls :: !c.OnInvoiceUpdated?
    ensures InDeliveryOrder(calls)
    ensures ActsOnlyOnVerified(calls, constructEvent)
    // a delivery without a `stripe-signature` header is rejected by Stripe's verifier
    ensures SecretConfigured(endpointSecret) && SignatureHeader(req).None? && RejectsMissingSignature(constructEvent) ==>
      statusCode == StatusBadRequest && |calls| == 1
  {
    calls := [];
    var event: Option<Event> := None;
    if SecretConfigured(endpointSecret) {
      var signature := SignatureHeader(req);
      calls := calls + [ConstructEvent(req.body, signature, endpointSecret.value)];
      event := constructEvent(req.body, signature, endpointSecret.value);
      if event.None? {
        // the verifier threw: warn and reply 400
        statusCode := StatusBadRequest;
        return;
      }
    }
    var eventType: Option<string> := if event.Some? then Some(event.value.eventType) else None;
    if eventType.Some? && eventType.value in SubscriptionEventTypes {
      var subscription := event.value.dataObject;
      LookupsAppend(calls, [GetSubscription(req)]);
      StateUpdatesAppend(calls, [GetSubscription(req)]);
      calls := calls + [GetSubscription(req)];
      var savedSubscription := getSubscription(req);
      if savedSubscription.Some? {
        LookupsAppend(calls, [OnSubscriptionChanged(subscription)]);
        StateUpdatesAppend(calls, [OnSubscriptionChanged(subscription)]);
        calls := calls + [OnSubscriptionChanged(subscription)];
      }
      // otherwise: warn that `subscription.id` was not found, and break
    }
    statusCode := StatusOk;
  }
}
