# fastify-stripe decision logic, modelled in Dafny

This project models the three pieces of decision logic in the fastify-stripe
plugins. Stripe's SDK and the Fastify framework are reduced to oracles.

- **Payment gate** (`PaymentActiveCheck`, `payment_active_check.dfy`). The
  `onRoute` listener looks at each route as it is registered. A route whose
  `config.paymentRequired` is truthy gets the gate hook appended to its
  `onRequest` list. The gate hook asks `getSubscription(req)` on every request.
  It lets the request through only for a record whose status is exactly
  `"active"` or `"trialing"`. Otherwise it sets `reply.statusCode` to 402 and
  throws `Error("Subscription required")`. `RouteOptions` is a class because
  the listener reassigns its `onRequest` field in place. A small model of
  Fastify's `onRequest` stage (`RunOnRequest`) runs a route's hooks in order
  and stops at the first that throws. It is used to state what the gate means
  for the route handler.
- **Subscription webhook** (`SubscriptionWebhooks`, `subscriptions.dfy`) and
  **invoice webhook** (`InvoiceWebhooks`, `invoices.dfy`). Each handler is a
  method that takes:
  - the request (raw body string and headers);
  - the configured endpoint secret;
  - the verifier `constructEventAsync`, where None means it threw;
  - the `getSubscription` lookup.

  It returns the response status and the trace of collaborator calls it made
  (`ConstructEvent`, `GetSubscription`, `OnSubscriptionChanged` /
  `OnInvoiceUpdated`). The shared vocabulary is in `Webhooks`
  (`webhooks.dfy`): the secret test, the event the verification step leaves
  behind, and the trace properties `InDeliveryOrder` and
  `ActsOnlyOnVerified`. The shared value types are in `StripeTypes`
  (`stripe_types.dfy`).

Two details are modelled exactly as the code does them:
- The webhook lookup is keyed on the request (`GetSubscription(req)`), not on
  the event object's id. The id appears only in a log message.
- With no endpoint secret (undefined or `""`), `event` stays undefined. No
  case of the switch matches, so nothing is looked up or dispatched, and the
  response is 200.

Three consequences of the code's structure that the model keeps:
- Hook order. The gate is appended after the route's own `onRequest` hooks
  (src/payment-active-check.ts:29-33). A route hook that throws therefore ends
  the request before the gate runs. `GatedRouteRequiresPayment` states this
  order.
- Lookup key. The webhook lookup is called with the request
  (src/webhooks/subscriptions.ts:44, src/webhooks/invoices.ts:41). The event
  object is never passed to it.
- No secret. When no endpoint secret is configured, the body is never turned
  into an event. The switch sees `undefined`, and nothing is looked up or
  dispatched (src/webhooks/subscriptions.ts:19-21,38).

## Model

| member | source | states |
|---|---|---|
| `PaymentActiveCheck.Truthy` | src/payment-active-check.ts:15-17 | a `paymentRequired` value opts in iff it is not one of JavaScript's falsy values (undefined, null, false, 0, "") |
| `PaymentActiveCheck.Authorized` | src/payment-active-check.ts:20-24 | a lookup result authorises iff a record was found and its status is in {"active", "trialing"}; a null record and every other status (e.g. "inactive") deny |
| `PaymentActiveCheck.OnRequest` | src/payment-active-check.ts:18-27 | each request makes exactly one fresh `getSubscription(req)` call; the hook returns without touching the reply iff the result authorises; otherwise it sets the reply status to 402 and throws "Subscription required" |
| `PaymentActiveCheck.OnRoute` | src/payment-active-check.ts:14-33 | the listener leaves `onRequest` as `InstallGate` says: unchanged for a route that does not opt in, otherwise the old list (or [] if undefined) followed by the gate; `config` is untouched |
| `PaymentActiveCheck.InstallGateKeepsHooks` | src/payment-active-check.ts:15-33 | a route without a truthy `paymentRequired` keeps its hooks; a gated route's new list has the old hooks as a prefix, in order, followed by exactly one more gate hook; with no hooks of its own the list is exactly the gate |
| `PaymentActiveCheck.GatedRouteRequiresPayment` | src/payment-active-check.ts:18-33 | on a gated route the handler runs iff the route's own hooks pass and the subscription authorises; a request only the gate stops ends with 402 before the handler runs; a request the route's own hooks stop ends as before |
| `PaymentActiveCheck.UngatedRouteIgnoresSubscription` | src/payment-active-check.ts:15-17 | a route that does not opt in is never intercepted: its requests end the same way whatever the subscription lookup returns |
| `PaymentActiveCheck.RunWithoutGate` | src/payment-active-check.ts:15-17 | a hook list without the gate gives the same outcome for any two subscription lookups |
| `PaymentActiveCheck.CountGatesAppend` | src/payment-active-check.ts:29-33 | proof helper for `InstallGateKeepsHooks`: the number of gate hooks in a concatenation of two hook lists is the sum of their counts, which gives the "exactly one more gate" of the appended list |
| `PaymentActiveCheck.RunOnRequestAppend` | src/payment-active-check.ts:29-33 | running old-list-plus-appended hooks runs the old list first and the appended hooks only if the old list let the request through |
| `SubscriptionWebhooks.HandleSubscriptionWebhook` | src/webhooks/subscriptions.ts:18-54 | with a secret, the first call is verification on the raw body, the `stripe-signature` value and the secret; without one, no call at all; status is 400 iff verification failed, else 200; `getSubscription(req)` is called once exactly for a verified `customer.subscription.{trial_will_end,deleted,created,updated}` event; `onSubscriptionChanged` is called once with `event.data.object` exactly when that lookup found a record, never otherwise; `onInvoiceUpdated` never; calls are in the order verify, lookup, update; no object is acted on unless verified; a missing header gives 400 with no lookup |
| `InvoiceWebhooks.HandleInvoiceWebhook` | src/webhooks/invoices.ts:18-49 | the same verification and status contract; `getSubscription(req)` is called once exactly for a verified `invoice.updated` event (the `customer.subscription.*` types included among the ignored); `onInvoiceUpdated` is called once with `event.data.object` exactly when the lookup found a record; `onSubscriptionChanged` never; calls are in order and act only on verified objects |
| `Webhooks.StateUpdatesAppend` | src/webhooks/subscriptions.ts:44-49 | proof helper for the `StateUpdates` clauses of both handler contracts, which build their trace by appending one call at a time: the objects passed to state-update callbacks in a concatenated trace are those of the first part followed by those of the second |
| `Webhooks.LookupsAppend` | src/webhooks/invoices.ts:41-43 | proof helper for the `Lookups` clauses of both handler contracts, which build their trace by appending one call at a time: the requests passed to `getSubscription` in a concatenated trace are those of the first part followed by those of the second |

## Left out

- src/stripe.ts and index.ts: they only construct the Stripe client and register plugins. There is no decision logic in them.
- The Stripe SDK's `constructEventAsync` (HMAC, timestamp tolerance, header parsing) is not part of this model. It is an arbitrary function parameter that returns an event or fails. The claim that a missing `stripe-signature` header fails is stated only under the assumption `RejectsMissingSignature`.
- Fastify machinery: the `application/json` content-type parser is represented only by the body being an unparsed string. Decorators, plugin `dependencies`/`decorators` metadata and the `onRoute` event lifecycle are not modelled. Fastify's mapping of a thrown error plus `reply.statusCode` to a response is reduced to `RunOnRequest`'s `Aborted(status)`.
- `req.log.warn` logging (failed verification, subscription not found) has no observable effect in the model.
- async/await: awaited calls are sequential steps. There is no concurrency.
- Exceptions thrown by `getSubscription`, `onSubscriptionChanged` or `onInvoiceUpdated`: the code does not handle them, so they are outside the model.
- Stripe object contents are opaque (`StripeObject`). Only `status` (the gate) and the event `type` are inspected.
- PaymentActiveCheck.Truthy: numbers are integers, so NaN, which is also falsy in JavaScript, is not represented.
- PaymentActiveCheck.OnRoute: `onRequest` is modelled as undefined or a list. Fastify also accepts a single function there, which the spread at src/payment-active-check.ts:30 would fail on. That form is not modelled.
- The response of a gated route's own handler (its body and status) is reduced to `HandlerRuns`.
