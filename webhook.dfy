/** The payment processor's webhook endpoint: check that a signature and a
    secret are present, verify the event, filter its type against the
    allow-list, route it to at most one reconciler and pick the HTTP response.
    Signature verification and the reconcilers themselves are opaque: the
    first is an input flag, the second either returns or throws. */
module WebhookRoute {
  import opened Common

  /** The event types this endpoint acts upon. */
  const RelevantEvents: set<string> := {
    "product.created", "product.updated",
    "price.created", "price.updated",
    "checkout.session.completed",
    "customer.subscription.created", "customer.subscription.updated", "customer.subscription.deleted"
  }

  /** The fields of `event.data.object` that the dispatcher reads. The same
      value stands for the whole object handed to the product and price
      reconcilers. */
  datatype EventObject = EventObject(id: string, customer: string, mode: string, subscription: string)

  datatype Event = Event(eventType: string, data: EventObject)

  /** An inbound delivery: the signature header, the configured webhook
      secret, whether the processor's verification accepts the body, and the
      event that the body decodes to. */
  datatype Request = Request(
    signature: Option<string>,
    webhookSecret: Option<string>,
    signatureValid: bool,
    event: Event)

  /** The reconciler invoked for an event, with its arguments. */
  datatype ReconcilerCall =
    | UpsertProductRecord(product: EventObject)
    | UpsertPriceRecord(price: EventObject)
    | ManageSubscriptionStatusChange(subscriptionId: string, customerId: string, createAction: bool)

  datatype Body = Text(text: string) | ReceivedJson

  datatype Response = Response(status: int, body: Body)

  /** What one delivery produces: the HTTP response (None when the handler
      returns nothing) and the reconciler it invoked, if any. */
  datatype Outcome = Outcome(response: Option<Response>, call: Option<ReconcilerCall>)

  const WebhookError := Response(400, Text("Webhook error"))
  const HandlerFailed := Response(400, Text("Webhook handler failed"))
  const Received := Response(200, ReceivedJson)

  /** JavaScript truthiness of an optional string: absent and "" are false. */
  predicate Truthy(s: Option<string>) {
    s.Some? && s.value != ""
  }

  /** The request gets past the presence guard and the verification step. */
  predicate Verified(req: Request) {
    Truthy(req.signature) && Truthy(req.webhookSecret) && req.signatureValid
  }

  predicate IsSubscriptionEvent(t: string) {
    t == "customer.subscription.created" || t == "customer.subscription.updated" || t == "customer.subscription.deleted"
  }

  /** The `switch` over the event type: the reconciler call it makes, or the
      "Unhandled event type" error of its default branch. */
  function Dispatch(e: Event): (r: Result<Option<ReconcilerCall>, string>)
    // the allow-list and the switch agree: the default branch is reached exactly for types outside it
    ensures r.Failure? <==> e.eventType !in RelevantEvents
    ensures e.eventType == "product.created" || e.eventType == "product.updated" ==>
      r == Success(Some(UpsertProductRecord(e.data)))
    ensures e.eventType == "price.created" || e.eventType == "price.updated" ==>
      r == Success(Some(UpsertPriceRecord(e.data)))
    ensures IsSubscriptionEvent(e.eventType) ==>
      r.Success? && r.value.Some? && r.value.value.ManageSubscriptionStatusChange? &&
      r.value.value.subscriptionId == e.data.id && r.value.value.customerId == e.data.customer
    ensures e.eventType == "checkout.session.completed" ==>
      r.Success? && (r.value.Some? <==> e.data.mode == "subscription")
    ensures e.eventType == "checkout.session.completed" && r.Success? && r.value.Some? ==>
      r.value.value == ManageSubscriptionStatusChange(e.data.subscription, e.data.customer, true)
    // the flag handed to the subscription reconciler is set for deletions and completed checkouts
    ensures r.Success? && r.value.Some? && r.value.value.ManageSubscriptionStatusChange? ==>
      (r.value.value.createAction <==>
         e.eventType == "customer.subscription.deleted" || e.eventType == "checkout.session.completed")
  {
    var t := e.eventType;
    var obj := e.data;
    if t == "product.created" || t == "product.updated" then
      Success(Some(UpsertProductRecord(obj)))
    else if t == "price.created" || t == "price.updated" then
      Success(Some(UpsertPriceRecord(obj)))
    else if IsSubscriptionEvent(t) then
      Success(Some(ManageSubscriptionStatusChange(obj.id, obj.customer, t == "customer.subscription.deleted")))
    else if t == "checkout.session.completed" then
      if obj.mode == "subscription" then
        Success(Some(ManageSubscriptionStatusChange(obj.subscription, obj.customer, true)))
      else
        Success(None)
    else
      Failure("Unhandled event type " + t)
  }

  /** The POST handler. `reconcilerThrows` says whether the reconciler it
      invokes (if any) throws. */
  function Post(req: Request, reconcilerThrows: bool): (o: Outcome)
    // a missing signature header or secret ends the handler with no response at all
    ensures o.response.None? <==> !(Truthy(req.signature) && Truthy(req.webhookSecret))
    // a rejected signature is a 400 "Webhook error"
    ensures Truthy(req.signature) && Truthy(req.webhookSecret) && !req.signatureValid ==>
      o.response == Some(WebhookError)
    // no reconciler runs unless the event is verified and allow-listed
    ensures o.call.Some? ==> Verified(req) && req.event.eventType in RelevantEvents
    // an event outside the allow-list is acknowledged and ignored
    ensures Verified(req) && req.event.eventType !in RelevantEvents ==> o == Outcome(Some(Received), None)
    // an allow-listed event reaches the reconciler its type selects
    ensures Verified(req) && req.event.eventType in RelevantEvents ==>
      Dispatch(req.event).Success? && o.call == Dispatch(req.event).value
    // a verified event is a 400 "Webhook handler failed" exactly when its reconciler throws, else acknowledged
    ensures Verified(req) ==> (o.response == Some(HandlerFailed) <==> o.call.Some? && reconcilerThrows)
    ensures Verified(req) ==> (o.response == Some(Received) <==> !(o.call.Some? && reconcilerThrows))
  {
    if !Truthy(req.signature) || !Truthy(req.webhookSecret) then
      Outcome(None, None)
    else if !req.signatureValid then
      Outcome(Some(WebhookError), None)
    else if req.event.eventType in RelevantEvents then
      match Dispatch(req.event)
      case Failure(_) => Outcome(Some(HandlerFailed), None)
      case Success(call) =>
        if call.Some? && reconcilerThrows then Outcome(Some(HandlerFailed), call)
        else Outcome(Some(Received), call)
    else
      Outcome(Some(Received), None)
  }
}
