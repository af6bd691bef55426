/** The provider's webhook: verifies the signature, then moves the matching
    coach_payments row to the status the event implies and logs it. */
module StripeWebhook {
  import opened Wrappers
  import opened Json
  import opened Http
  import opened Store
  import opened Stripe

  /** The acknowledgement `{ received: true }`. */
  const Received: Response := Ok(map["received" := Bool(true)])

  /** What a verified event does: set `status` on the row of `sessionId` and
      append `entry`. */
  datatype Transition = Transition(sessionId: string, status: PaymentStatus, entry: LogEntry)

  /** The `payment_succeeded` log payload: the session id, and the customer
      email, charged amount and currency as the session carries them. */
  function SucceededPayload(session: StripeObject): (r: Object)
    ensures r.Keys <= {"session_id", "customer_email", "amount_total", "currency"}
    ensures "session_id" in r && r["session_id"] == Str(session.id)
    ensures Mirrors(r, "customer_email", CustomerEmail(session))
    ensures Mirrors(r, "amount_total", Prop(session, "amount_total"))
    ensures Mirrors(r, "currency", Prop(session, "currency"))
  {
    With(With(With(map["session_id" := Str(session.id)],
      "customer_email", CustomerEmail(session)),
      "amount_total", Prop(session, "amount_total")),
      "currency", Prop(session, "currency"))
  }

  /** The `checkout_expired` log payload: the session id and the customer
      email. */
  function ExpiredPayload(session: StripeObject): (r: Object)
    ensures r.Keys <= {"session_id", "customer_email"}
    ensures "session_id" in r && r["session_id"] == Str(session.id)
    ensures Mirrors(r, "customer_email", CustomerEmail(session))
  {
    With(map["session_id" := Str(session.id)], "customer_email", CustomerEmail(session))
  }

  /** The `payment_failed` log payload: the intent's id, the session found
      for it and the intent's last payment error. */
  function FailedPayload(intent: StripeObject, sessionId: string): (r: Object)
    ensures r.Keys <= {"payment_intent_id", "session_id", "last_payment_error"}
    ensures "payment_intent_id" in r && r["payment_intent_id"] == Str(intent.id)
    ensures "session_id" in r && r["session_id"] == Str(sessionId)
    ensures Mirrors(r, "last_payment_error", Prop(intent, "last_payment_error"))
  {
    With(map["payment_intent_id" := Str(intent.id), "session_id" := Str(sessionId)],
      "last_payment_error", Prop(intent, "last_payment_error"))
  }

  /** The `switch (event.type)`. Success(Some(t)) is a handled event,
      Success(None) one acknowledged without effect, and Failure(e) a thrown
      error from the secondary session lookup. */
  function Plan(ev: Event, stripe: Provider): (r: Result<Option<Transition>, Option<string>>)
    ensures ev.eventType == "checkout.session.completed" ==>
      r == Success(Some(Transition(ev.dataObject.id, Succeeded,
        LogEntry("payment_succeeded", SucceededPayload(ev.dataObject)))))
    ensures ev.eventType == "checkout.session.expired" ==>
      r == Success(Some(Transition(ev.dataObject.id, Cancelled,
        LogEntry("checkout_expired", ExpiredPayload(ev.dataObject)))))
    ensures ev.eventType == "payment_intent.payment_failed" ==>
      var listed := stripe.listSessionsByIntent(ev.dataObject.id);
      && (listed.Failure? <==> r.Failure?)
      && (listed.Success? && listed.value == [] ==> r == Success(None))
      && (listed.Success? && listed.value != [] ==>
            r == Success(Some(Transition(listed.value[0].id, Failed,
              LogEntry("payment_failed", FailedPayload(ev.dataObject, listed.value[0].id))))))
    ensures ev.eventType !in {"checkout.session.completed", "checkout.session.expired", "payment_intent.payment_failed"} ==>
      r == Success(None)
    ensures r.Success? && r.value.Some? ==> r.value.value.status != Pending
  {
    var session := ev.dataObject;
    if ev.eventType == "checkout.session.completed" then
      Success(Some(Transition(session.id, Succeeded, LogEntry("payment_succeeded", SucceededPayload(session)))))
    else if ev.eventType == "checkout.session.expired" then
      Success(Some(Transition(session.id, Cancelled, LogEntry("checkout_expired", ExpiredPayload(session)))))
    else if ev.eventType == "payment_intent.payment_failed" then
      var intent := ev.dataObject;
      var listed := stripe.listSessionsByIntent(intent.id);
      if listed.Failure? then Failure(listed.error)
      else if |listed.value| > 0 then
        Success(Some(Transition(listed.value[0].id, Failed,
          LogEntry("payment_failed", FailedPayload(intent, listed.value[0].id)))))
      else Success(None)
    else Success(None)
  }

  /** `if (!signature)`: the header is present and non-empty. */
  function Signed(signature: Option<string>): (r: bool)
    ensures r <==> Holds(if signature.Some? then Some(Str(signature.value)) else None)
  {
    signature.Some? && signature.value != ""
  }

  /** POST /api/webhooks/stripe with the raw `body` and the stripe-signature
      header `signature` (None when absent). */
  method Handle(db: Db, body: string, signature: Option<string>, stripe: Provider) returns (resp: Response)
    requires db.Valid()
    modifies db
    ensures db.Valid() && db.intakes == old(db.intakes)
    ensures !Signed(signature) ==>
      resp == Error(400, "Missing stripe-signature header")
      && db.payments == old(db.payments) && db.log == old(db.log)
    ensures Signed(signature) && stripe.constructEvent(body, signature.value).None? ==>
      resp == Error(400, "Invalid signature")
      && db.payments == old(db.payments) && db.log == old(db.log)
    ensures Signed(signature) && stripe.constructEvent(body, signature.value).Some? ==>
      var plan := Plan(stripe.constructEvent(body, signature.value).value, stripe);
      && (plan.Failure? ==>
            resp == Error(500, "Webhook handler failed")
            && db.payments == old(db.payments) && db.log == old(db.log))
      && (plan == Success(None) ==>
            resp == Received && db.payments == old(db.payments) && db.log == old(db.log))
      && (plan.Success? && plan.value.Some? ==>
            var t := plan.value.value;
            && resp == Received
            && db.payments == SetStatus(old(db.payments), t.sessionId, t.status)
            && db.log == old(db.log) + [t.entry])
  {
    if !Signed(signature) {
      return Error(400, "Missing stripe-signature header");
    }
    var event := stripe.constructEvent(body, signature.value);
    if event.None? {
      return Error(400, "Invalid signature");
    }
    var plan := Plan(event.value, stripe);
    if plan.Failure? {
      return Error(500, "Webhook handler failed");
    }
    if plan.value.Some? {
      var t := plan.value.value;
      db.UpdatePaymentStatus(t.sessionId, t.status);
      db.LogEvent(t.entry.eventType, t.entry.payload);
    }
    resp := Received;
  }

  /** Redelivering an event the provider already delivered: both deliveries
      are acknowledged, the second appends its log entry again, and the
      table ends as it was after the first. */
  method Redeliver(db: Db, body: string, signature: Option<string>, stripe: Provider)
    returns (first: Response, second: Response)
    requires db.Valid()
    requires Signed(signature) && stripe.constructEvent(body, signature.value).Some?
    requires Plan(stripe.constructEvent(body, signature.value).value, stripe).Success?
    modifies db
    ensures db.Valid() && db.intakes == old(db.intakes)
    ensures first == Received && second == Received
    ensures db.log ==
      var plan := Plan(stripe.constructEvent(body, signature.value).value, stripe);
      if plan.value.Some? then old(db.log) + [plan.value.value.entry, plan.value.value.entry]
      else old(db.log)
    ensures db.payments ==
      var plan := Plan(stripe.constructEvent(body, signature.value).value, stripe);
      if plan.value.Some? then SetStatus(old(db.payments), plan.value.value.sessionId, plan.value.value.status)
      else old(db.payments)
  {
    first := Handle(db, body, signature, stripe);
    second := Handle(db, body, signature, stripe);
    var plan := Plan(stripe.constructEvent(body, signature.value).value, stripe);
    if plan.value.Some? {
      SetStatusIdempotent(old(db.payments), plan.value.value.sessionId, plan.value.value.status);
    }
  }

  /** Out-of-order delivery: an `expired` event processed after `completed`
      for the same session leaves the row cancelled. */
  lemma ExpiredAfterCompletedDowngrades(payments: map<string, PaymentRow>, completed: Event, expired: Event, stripe: Provider)
    requires Keyed(payments)
    requires completed.eventType == "checkout.session.completed"
    requires expired.eventType == "checkout.session.expired"
    requires completed.dataObject.id == expired.dataObject.id && completed.dataObject.id in payments
    ensures
      var sid := completed.dataObject.id;
      var afterCompleted := SetStatus(payments, sid, Plan(completed, stripe).value.value.status);
      var afterBoth := SetStatus(afterCompleted, sid, Plan(expired, stripe).value.value.status);
      afterBoth[sid].status == Cancelled
  {
    var sid := completed.dataObject.id;
    SetStatusLastWins(payments, sid, Succeeded, Cancelled);
    SetStatusKeyed(payments, sid, Cancelled);
  }
}
