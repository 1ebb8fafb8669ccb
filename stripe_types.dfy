/** Values shared by the payment gate and the two webhook dispatchers: the
    Stripe objects and events they pass around, the inbound request, the two
    collaborators they consult, and the calls they make, as a trace. */
module StripeTypes {

  datatype Option<+T> = None | Some(value: T)

  /** A Stripe API object (a subscription or an invoice). Only `status` is
      ever inspected, by the payment gate; the rest travels opaquely. */
  datatype StripeObject = StripeObject(id: string, status: string, fields: map<string, string>)

  /** A verified `Stripe.Event`: its id, its `type` tag and its `data.object`. */
  datatype Event = Event(id: string, eventType: string, dataObject: StripeObject)

  /** An inbound HTTP request: the body, kept as the unparsed string the
      content-type parser hands over, and the request headers. */
  datatype Request = Request(body: string, headers: map<string, string>)

  const StripeSignatureHeader: string := "stripe-signature"

  /** `req.headers["stripe-signature"]`, None when the header is absent. */
  function SignatureHeader(req: Request): Option<string>
  {
    if StripeSignatureHeader in req.headers then Some(req.headers[StripeSignatureHeader]) else None
  }

  /** `stripe.webhooks.constructEventAsync(payload, header, secret)`: the
      event it resolves to, or None when it throws. */
  type EventVerifier = (string, Option<string>, string) -> Option<Event>

  /** `fastify.getSubscription(req)`: the saved record, or None for null. */
  type SubscriptionLookup = Request -> Option<StripeObject>

  /** One call to a collaborator, in the order it is made. */
  datatype Call =
    | ConstructEvent(payload: string, signature: Option<string>, secret: string)
    | GetSubscription(req: Request)
    | OnSubscriptionChanged(subscription: StripeObject)
    | OnInvoiceUpdated(invoice: StripeObject)
}
