/** The `POST /webhooks/invoices` handler: the same verification step as the
    subscription channel, then `invoice.updated` is passed to
    `onInvoiceUpdated` when the lookup finds a saved subscription. */
module InvoiceWebhooks {
  import opened StripeTypes
  import opened Webhooks

  /** The one case of the handler's `switch (event?.type)`. */
  const InvoiceEventTypes: set<string> := {"invoice.updated"}

  /** One delivery. `constructEvent` and `getSubscription` stand for the Stripe
      SDK's verifier and the host's lookup; `calls` records every call made to
      them and to `onInvoiceUpdated`, in order. */
  method HandleInvoiceWebhook(req: Request, endpointSecret: Option<string>,
                              constructEvent: EventVerifier, getSubscription: SubscriptionLookup)
    returns (statusCode: int, calls: seq<Call>)
    // verification sees the raw body, the header value and the secret, and comes first
    ensures SecretConfigured(endpointSecret) ==>
      |calls| >= 1 && calls[0] == ConstructEvent(req.body, SignatureHeader(req), endpointSecret.value)
    // without a secret `event` stays undefined and nothing at all is called
    ensures !SecretConfigured(endpointSecret) ==> calls == []
    // exactly one status: 400 for a failed verification, 200 on every other path
    ensures statusCode == if VerificationFailed(req, endpointSecret, constructEvent) then StatusBadRequest else StatusOk
    // the lookup happens once, keyed on the request, exactly for a verified `invoice.updated`;
    // every other type, the `customer.subscription.*` ones included, is acknowledged untouched
    ensures Lookups(calls) == if Dispatched(req, endpointSecret, constructEvent, InvoiceEventTypes) then [req] else []
    // the callback fires once, with `event.data.object`, exactly when the lookup also found a record
    ensures StateUpdates(calls) ==
      if Dispatched(req, endpointSecret, constructEvent, InvoiceEventTypes) && getSubscription(req).Some?
      then [DeliveredEvent(req, endpointSecret, constructEvent).value.dataObject]
      else []
    ensures forall c | c in calls :: !c.OnSubscriptionChanged?
    ensures InDeliveryOrder(calls)
    ensures ActsOnlyOnVerified(calls, constructEvent)
    // a delivery without a `stripe-signature` header is rejected by Stripe's verifier
    ensures SecretConfigured(endpointSecret) && SignatureHeader(req).None? && RejectsMissingSignature(constructEvent) ==>
      statusCode == StatusBadRequest && |calls| == 1
  {
    calls := [];
    var event: Option<Event> := None;
    if SecretConfigured(endpointSecret) {
      var signature := SignatureHeader(req);
      calls := calls + [ConstructEvent(req.body, signature, endpointSecret.value)];
      event := constructEvent(req.body, signature, endpointSecret.value);
      if event.None? {
        // the verifier threw: warn and reply 400
        statusCode := StatusBadRequest;
        return;
      }
    }
    var eventType: Option<string> := if event.Some? then Some(event.value.eventType) else None;
    if eventType.Some? && eventType.value in InvoiceEventTypes {
      var invoice := event.value.dataObject;
      LookupsAppend(calls, [GetSubscription(req)]);
      StateUpdatesAppend(calls, [GetSubscription(req)]);
      calls := calls + [GetSubscription(req)];
      var savedSubscription := getSubscription(req);
      if savedSubscription.Some? {
        LookupsAppend(calls, [OnInvoiceUpdated(invoice)]);
        StateUpdatesAppend(calls, [OnInvoiceUpdated(invoice)]);
        calls := calls + [OnInvoiceUpdated(invoice)];
      }
    }
    statusCode := StatusOk;
  }
}
