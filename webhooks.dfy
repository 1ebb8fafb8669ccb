/** What the two webhook dispatchers (`POST /webhooks/subscriptions` and
    `POST /webhooks/invoices`) have in common: the verification step, the
    response codes, and the vocabulary for stating properties of the trace of
    collaborator calls one delivery makes. */
module Webhooks {
  import opened StripeTypes

  /** Fastify's default status, sent on every path that does not fail verification. */
  const StatusOk: int := 200
  /** `reply.status(400)` after a failed signature check. */
  const StatusBadRequest: int := 400

  /** `if (endpointSecret)`: a secret is configured when it is a non-empty
      string; undefined and "" both switch verification off. */
  predicate SecretConfigured(endpointSecret: Option<string>)
  {
    endpointSecret.Some? && endpointSecret.value != ""
  }

  /** The value `event` holds after the verification step when that step does
      not end the request: undefined (None) without a secret, otherwise what
      `constructEventAsync` returned for the raw body, header and secret. */
  function DeliveredEvent(req: Request, endpointSecret: Option<string>, constructEvent: EventVerifier): Option<Event>
  {
    if SecretConfigured(endpointSecret)
    then constructEvent(req.body, SignatureHeader(req), endpointSecret.value)
    else None
  }

  /** A secret is configured and `constructEventAsync` threw. */
  predicate VerificationFailed(req: Request, endpointSecret: Option<string>, constructEvent: EventVerifier)
  {
    SecretConfigured(endpointSecret) && DeliveredEvent(req, endpointSecret, constructEvent).None?
  }

  /** The event reached the switch and its type is one of `eventTypes`. */
  predicate Dispatched(req: Request, endpointSecret: Option<string>, constructEvent: EventVerifier, eventTypes: set<string>)
  {
    var event := DeliveredEvent(req, endpointSecret, constructEvent);
    event.Some? && event.value.eventType in eventTypes
  }

  /** Stripe's own verifier throws whenever the signature header is missing. */
  ghost predicate RejectsMissingSignature(constructEvent: EventVerifier)
  {
    forall payload, secret :: constructEvent(payload, None, secret).None?
  }

  /** Where a call sits in one delivery: verification, then lookup, then state update. */
  function Stage(c: Call): nat
  {
    match c
    case ConstructEvent(_, _, _) => 0
    case GetSubscription(_) => 1
    case OnSubscriptionChanged(_) => 2
    case OnInvoiceUpdated(_) => 2
  }

  /** Every stage occurs at most once, and verification precedes the lookup,
      which precedes the state update. */
  ghost predicate InDeliveryOrder(calls: seq<Call>)
  {
    forall i, j :: 0 <= i < j < |calls| ==> Stage(calls[i]) < Stage(calls[j])
  }

  predicate IsStateUpdate(c: Call)
  {
    c.OnSubscriptionChanged? || c.OnInvoiceUpdated?
  }

  function UpdatedObject(c: Call): StripeObject
    requires IsStateUpdate(c)
  {
    if c.OnSubscriptionChanged? then c.subscription else c.invoice
  }

  /** The object a call verified, when it is a verification that succeeded. */
  function VerifiedObject(c: Call, constructEvent: EventVerifier): Option<StripeObject>
  {
    if c.ConstructEvent? then
      match constructEvent(c.payload, c.signature, c.secret)
      case Some(event) => Some(event.dataObject)
      case None => None
    else None
  }

  /** No object is acted upon unless an earlier call in the same delivery
      verified a payload whose event carries exactly that object. */
  ghost predicate ActsOnlyOnVerified(calls: seq<Call>, constructEvent: EventVerifier)
  {
    forall i | 0 <= i < |calls| && IsStateUpdate(calls[i]) ::
      exists j | 0 <= j < i :: VerifiedObject(calls[j], constructEvent) == Some(UpdatedObject(calls[i]))
  }

  /** The objects handed to a state-update collaborator, in call order. */
  function StateUpdates(calls: seq<Call>): seq<StripeObject>
  {
    if calls == [] then []
    else (if IsStateUpdate(calls[0]) then [UpdatedObject(calls[0])] else []) + StateUpdates(calls[1..])
  }

  /** The requests handed to `getSubscription`, in call order. */
  function Lookups(calls: seq<Call>): seq<Request>
  {
    if calls == [] then []
    else (if calls[0].GetSubscription? then [calls[0].req] else []) + Lookups(calls[1..])
  }

  lemma {:induction false} StateUpdatesAppend(a: seq<Call>, b: seq<Call>)
    ensures StateUpdates(a + b) == StateUpdates(a) + StateUpdates(b)
  {
    if a == [] {
      assert a + b == b;
    } else {
      var head := if IsStateUpdate(a[0]) then [UpdatedObject(a[0])] else [];
      assert (a + b)[0] == a[0] && (a + b)[1..] == a[1..] + b;
      assert StateUpdates(a + b) == head + StateUpdates(a[1..] + b);
      StateUpdatesAppend(a[1..], b);
    }
  }

  lemma {:induction false} LookupsAppend(a: seq<Call>, b: seq<Call>)
    ensures Lookups(a + b) == Lookups(a) + Lookups(b)
  {
    if a == [] {
      assert a + b == b;
    } else {
      var head := if a[0].GetSubscription? then [a[0].req] else [];
      assert (a + b)[0] == a[0] && (a + b)[1..] == a[1..] + b;
      assert Lookups(a + b) == head + Lookups(a[1..] + b);
      LookupsAppend(a[1..], b);
    }
  }
}
