/** The payment gate: an `onRoute` listener that gives every route whose
    config has a truthy `paymentRequired` an extra `onRequest` hook, and that
    hook, which lets a request through only for an active or trialing
    subscription and otherwise ends it with 402. */
module PaymentActiveCheck {
  import opened StripeTypes

  /** 402 Payment Required (section 15.5.3 of RFC 9110). */
  const StatusPaymentRequired: int := 402
  const SubscriptionRequiredMessage: string := "Subscription required"

  /** The subscription statuses that authorise a request. */
  const AuthorizingStatuses: set<string> := {"active", "trialing"}

  /** A JavaScript value that a route's `config.paymentRequired` may hold. */
  datatype ConfigValue = Undefined | Null | Bool(b: bool) | Number(n: int) | Text(s: string) | Object

  /** The values JavaScript treats as false in a condition (NaN aside). */
  const FalsyValues: set<ConfigValue> := {Undefined, Null, Bool(false), Number(0), Text("")}

  /** JavaScript truthiness, as `!` in `if (!routeOptions.config?.paymentRequired)` applies it. */
  function Truthy(v: ConfigValue): (truthy: bool)
    ensures truthy <==> v !in FalsyValues
  {
    match v
    case Undefined => false
    case Null => false
    case Bool(b) => b
    case Number(n) => n != 0
    case Text(s) => s != ""
    case Object => true
  }

  const PaymentRequiredKey: string := "paymentRequired"

  /** `routeOptions.config?.paymentRequired`: undefined when the route has no
      config or its config has no such key. */
  function PaymentRequiredValue(config: Option<map<string, ConfigValue>>): ConfigValue
  {
    if config.Some? && PaymentRequiredKey in config.value then config.value[PaymentRequiredKey] else Undefined
  }

  /** The route opted in to the gate. */
  predicate PaymentRequired(config: Option<map<string, ConfigValue>>)
  {
    Truthy(PaymentRequiredValue(config))
  }

  /** The negation of the denial test: a record was found and its status is
      exactly "active" or "trialing"; every other status denies. */
  function Authorized(subscription: Option<StripeObject>): (allowed: bool)
    ensures allowed <==> subscription.Some? && subscription.value.status in AuthorizingStatuses
  {
    !(subscription.None? || (subscription.value.status != "active" && subscription.value.status != "trialing"))
  }

  /** How the gate hook ends: it returns, or it throws `Error(message)`. */
  datatype HookResult = Continue | Threw(message: string)

  /** The gate hook for one request. `replyStatus` is `reply.statusCode` on
      entry and `newReplyStatus` its value on exit; `calls` records the
      lookup. Nothing survives between requests: every call asks
      `getSubscription` afresh. */
  method OnRequest(req: Request, getSubscription: SubscriptionLookup, replyStatus: int)
    returns (newReplyStatus: int, result: HookResult, calls: seq<Call>)
    ensures calls == [GetSubscription(req)]
    ensures result.Continue? <==> Authorized(getSubscription(req))
    ensures result.Continue? ==> newReplyStatus == replyStatus
    ensures result.Threw? ==> newReplyStatus == StatusPaymentRequired && result.message == SubscriptionRequiredMessage
  {
    calls := [GetSubscription(req)];
    var subscription := getSubscription(req);
    if !Authorized(subscription) {
      newReplyStatus := StatusPaymentRequired;
      result := Threw(SubscriptionRequiredMessage);
      return;
    }
    newReplyStatus, result := replyStatus, Continue;
  }

  /** An entry of a route's `onRequest` list: a hook the route declared
      itself, or the gate hook this plugin installs. */
  datatype Hook = UserHook(name: string) | PaymentGate

  /** The `routeOptions` object Fastify hands to `onRoute` listeners; the
      listener reads `config` and may replace `onRequest` (None: undefined). */
  class RouteOptions {
    const config: Option<map<string, ConfigValue>>
    var onRequest: Option<seq<Hook>>

    constructor (config: Option<map<string, ConfigValue>>, onRequest: Option<seq<Hook>>)
      ensures this.config == config && this.onRequest == onRequest
    {
      this.config := config;
      this.onRequest := onRequest;
    }
  }

  /** `routeOptions.onRequest || []`. */
  function HooksOf(onRequest: Option<seq<Hook>>): seq<Hook>
  {
    if onRequest.Some? then onRequest.value else []
  }

  /** The `onRequest` list a route has once the listener has seen it. */
  function InstallGate(config: Option<map<string, ConfigValue>>, onRequest: Option<seq<Hook>>): Option<seq<Hook>>
  {
    if !PaymentRequired(config) then onRequest else Some(HooksOf(onRequest) + [PaymentGate])
  }

  /** The `onRoute` listener. */
  method OnRoute(routeOptions: RouteOptions)
    modifies routeOptions
    ensures routeOptions.onRequest == InstallGate(routeOptions.config, old(routeOptions.onRequest))
  {
    if !PaymentRequired(routeOptions.config) {
      return;
    }
    routeOptions.onRequest := Some(HooksOf(routeOptions.onRequest) + [PaymentGate]);
  }

  function CountGates(hooks: seq<Hook>): nat
  {
    if hooks == [] then 0 else (if hooks[0] == PaymentGate then 1 else 0) + CountGates(hooks[1..])
  }

  lemma {:induction false} CountGatesAppend(a: seq<Hook>, b: seq<Hook>)
    ensures CountGates(a + b) == CountGates(a) + CountGates(b)
  {
    if a == [] {
      assert a + b == b;
    } else {
      assert (a + b)[1..] == a[1..] + b;
      CountGatesAppend(a[1..], b);
    }
  }

  /** A route that does not opt in keeps its `onRequest` exactly as it was. A
      route that does keeps its own hooks, in order, followed by exactly one
      more gate; a route with no hooks of its own ends up with the gate alone. */
  lemma InstallGateKeepsHooks(config: Option<map<string, ConfigValue>>, onRequest: Option<seq<Hook>>)
    ensures !PaymentRequired(config) ==> InstallGate(config, onRequest) == onRequest
    ensures PaymentRequired(config) ==>
      var hooks, n := HooksOf(InstallGate(config, onRequest)), |HooksOf(onRequest)|;
      |hooks| == n + 1 && hooks[..n] == HooksOf(onRequest) && hooks[n] == PaymentGate &&
      CountGates(hooks) == CountGates(HooksOf(onRequest)) + 1
    ensures PaymentRequired(config) && HooksOf(onRequest) == [] ==> InstallGate(config, onRequest) == Some([PaymentGate])
  {
    CountGatesAppend(HooksOf(onRequest), [PaymentGate]);
  }

  /** What a route's own `onRequest` hook does with the request at hand:
      None lets it through, Some(code) makes it throw with that reply status. */
  type UserHookBehaviour = string -> Option<int>

  datatype RequestOutcome = HandlerRuns | Aborted(statusCode: int)

  /** Fastify's `onRequest` stage: the hooks run in list order, the first
      that throws ends the request with the reply's status, and the route
      handler runs only when none does. `subscription` is what
      `getSubscription` returns for this request. */
  function RunOnRequest(hooks: seq<Hook>, userHooks: UserHookBehaviour, subscription: Option<StripeObject>): RequestOutcome
  {
    if hooks == [] then HandlerRuns
    else
      var abort := match hooks[0]
        case UserHook(name) => userHooks(name)
        case PaymentGate => if Authorized(subscription) then None else Some(StatusPaymentRequired);
      if abort.Some? then Aborted(abort.value) else RunOnRequest(hooks[1..], userHooks, subscription)
  }

  lemma {:induction false} RunOnRequestAppend(a: seq<Hook>, b: seq<Hook>, userHooks: UserHookBehaviour,
                                              subscription: Option<StripeObject>)
    ensures RunOnRequest(a + b, userHooks, subscription) ==
      if RunOnRequest(a, userHooks, subscription).HandlerRuns?
      then RunOnRequest(b, userHooks, subscription)
      else RunOnRequest(a, userHooks, subscription)
  {
    if a == [] {
      assert a + b == b;
    } else {
      assert (a + b)[1..] == a[1..] + b;
      RunOnRequestAppend(a[1..], b, userHooks, subscription);
    }
  }

  /** On a gated route the handler runs iff the route's own hooks let the
      request through and the subscription authorises it; a request that only
      the gate stops ends with 402, and one the route's own hooks stop ends as
      it did before the gate was installed. */
  lemma GatedRouteRequiresPayment(config: Option<map<string, ConfigValue>>, onRequest: Option<seq<Hook>>,
                                  userHooks: UserHookBehaviour, subscription: Option<StripeObject>)
    requires PaymentRequired(config)
    ensures
      var before := RunOnRequest(HooksOf(onRequest), userHooks, subscription);
      var after := RunOnRequest(HooksOf(InstallGate(config, onRequest)), userHooks, subscription);
      (after.HandlerRuns? <==> before.HandlerRuns? && Authorized(subscription)) &&
      (before.HandlerRuns? && !Authorized(subscription) ==> after == Aborted(StatusPaymentRequired)) &&
      (before.Aborted? ==> after == before)
  {
    RunOnRequestAppend(HooksOf(onRequest), [PaymentGate], userHooks, subscription);
  }

  /** Hooks that do not include the gate behave the same whatever the subscription. */
  lemma {:induction false} RunWithoutGate(hooks: seq<Hook>, userHooks: UserHookBehaviour,
                                          s1: Option<StripeObject>, s2: Option<StripeObject>)
    requires CountGates(hooks) == 0
    ensures RunOnRequest(hooks, userHooks, s1) == RunOnRequest(hooks, userHooks, s2)
  {
    if hooks != [] {
      RunWithoutGate(hooks[1..], userHooks, s1, s2);
    }
  }

  /** A route that does not opt in is never intercepted: what happens to its
      requests does not depend on the subscription at all. */
  lemma UngatedRouteIgnoresSubscription(config: Option<map<string, ConfigValue>>, onRequest: Option<seq<Hook>>,
                                        userHooks: UserHookBehaviour, s1: Option<StripeObject>, s2: Option<StripeObject>)
    requires !PaymentRequired(config)
    requires CountGates(HooksOf(onRequest)) == 0
    ensures RunOnRequest(HooksOf(InstallGate(config, onRequest)), userHooks, s1) ==
            RunOnRequest(HooksOf(onRequest), userHooks, s2)
  {
    RunWithoutGate(HooksOf(onRequest), userHooks, s1, s2);
  }
}
