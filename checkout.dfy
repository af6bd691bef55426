/** The checkout route: POST starts a hosted checkout session and records a
    pending payment; GET reports a session's status. */
module Checkout {
  import opened Wrappers
  import opened Json
  import opened Http
  import opened Store
  import opened Stripe

  /** What `const { email, name, businessName } = body` reads. */
  datatype Customer = Customer(email: Value, name: Value, businessName: Option<Value>)

  /** The message of the TypeError thrown by destructuring a null body. */
  const NullBodyMessage: string := "Cannot destructure property 'email' of 'body' as it is null."

  /** The input check: both email and name must be truthy. */
  function ReadCustomer(body: Value): (r: Option<Customer>)
    ensures r.Some? <==> Holds(Get(body, "email")) && Holds(Get(body, "name"))
    ensures r.Some? ==>
      && Get(body, "email") == Some(r.value.email) && Truthy(r.value.email)
      && Get(body, "name") == Some(r.value.name) && Truthy(r.value.name)
      && r.value.businessName == Get(body, "businessName")
  {
    var email := Get(body, "email");
    var name := Get(body, "name");
    if Holds(email) && Holds(name) then Some(Customer(email.value, name.value, Get(body, "businessName")))
    else None
  }

  /** The session the POST asks the provider to create. */
  function SessionRequestFor(c: Customer, appUrl: string): (r: SessionRequest)
    ensures |r.lineItems| == 1
    ensures r.lineItems[0].quantity == 1
    ensures r.lineItems[0].unitAmount == Amount && r.lineItems[0].currency == Currency
    ensures r.customerEmail == c.email
    ensures r.allowPromotionCodes
    ensures r.metadata.Keys == {"customer_name", "business_name", "product_type"}
    ensures r.metadata["customer_name"] == c.name
    ensures r.metadata["business_name"] == if Holds(c.businessName) then c.businessName.value else Str("")
    ensures r.metadata["product_type"] == Str("onboarding_service")
    ensures r.successUrl == SuccessUrl(appUrl) && r.cancelUrl == CancelUrl(appUrl)
  {
    var item := LineItem(Currency, ProductName, ProductDescription, [appUrl + "/og-image.png"], Amount, 1);
    SessionRequest(
      ["card"], Mode, BillingAddressCollection, [item], c.email,
      map[
        "customer_name" := c.name,
        "business_name" := if OrNull(c.businessName) == Null then Str("") else OrNull(c.businessName),
        "product_type" := Str("onboarding_service")],
      SuccessUrl(appUrl), CancelUrl(appUrl), true, true)
  }

  /** The checkout_initiated log payload; an undefined businessName is left
      out of the JSON. */
  function InitiatedPayload(sessionId: string, c: Customer): (r: Object)
    ensures r.Keys <= {"session_id", "customer_email", "customer_name", "business_name", "amount"}
    ensures "session_id" in r && r["session_id"] == Str(sessionId)
    ensures "customer_email" in r && r["customer_email"] == c.email
    ensures "customer_name" in r && r["customer_name"] == c.name
    ensures "amount" in r && r["amount"] == Num(Amount)
    ensures "business_name" in r <==> c.businessName.Some?
    ensures "business_name" in r ==> Some(r["business_name"]) == c.businessName
  {
    With(
      map[
        "session_id" := Str(sessionId),
        "customer_email" := c.email,
        "customer_name" := c.name,
        "amount" := Num(Amount)],
      "business_name", c.businessName)
  }

  /** The POST response `{ checkout_url: session.url, session_id: session.id }`. */
  function CheckoutReply(session: StripeObject): (r: Object)
    ensures "session_id" in r && r["session_id"] == Str(session.id)
    ensures "checkout_url" in r <==> Prop(session, "url").Some?
    ensures "checkout_url" in r ==> Some(r["checkout_url"]) == Prop(session, "url")
    ensures r.Keys <= {"session_id", "checkout_url"}
  {
    With(map["session_id" := Str(session.id)], "checkout_url", Prop(session, "url"))
  }

  /** The message of the 500 response when session creation throws. */
  function CreateFailureMessage(e: Option<string>): string {
    if e.Some? then e.value else "Failed to create checkout session"
  }

  /** POST /api/checkout. `newId` is the primary key the database would
      generate for the payment row and `fault` a transport failure of its
      insert; `appUrl` is the NEXT_PUBLIC_APP_URL setting. */
  method Initiate(db: Db, body: Body, stripe: Provider, appUrl: string, newId: string, fault: bool)
    returns (resp: Response)
    requires db.Valid()
    modifies db
    ensures db.Valid() && db.intakes == old(db.intakes)
    ensures body.Malformed? ==>
      resp == Error(500, body.message) && db.payments == old(db.payments) && db.log == old(db.log)
    ensures body == Parsed(Null) ==>
      resp == Error(500, NullBodyMessage) && db.payments == old(db.payments) && db.log == old(db.log)
    ensures body.Parsed? && body.value != Null && ReadCustomer(body.value).None? ==>
      resp == Error(400, "Email and name are required")
      && db.payments == old(db.payments) && db.log == old(db.log)
    ensures body.Parsed? && body.value != Null && ReadCustomer(body.value).Some? ==>
      var c := ReadCustomer(body.value).value;
      var created := stripe.createSession(SessionRequestFor(c, appUrl));
      && (created.Failure? ==>
            resp == Error(500, CreateFailureMessage(created.error))
            && db.payments == old(db.payments) && db.log == old(db.log))
      && (created.Success? ==>
            var session := created.value;
            var inserted := !fault && session.id !in old(db.payments) && !old(db.PaymentIdInUse(newId));
            && resp == Ok(CheckoutReply(session))
            && db.payments == (if inserted
                               then old(db.payments)[session.id := PaymentRow(newId, c.email, c.name, session.id, Pending)]
                               else old(db.payments))
            && db.log == old(db.log) + [LogEntry("checkout_initiated", InitiatedPayload(session.id, c))])
  {
    if body.Malformed? {
      return Error(500, body.message);
    }
    if body.value == Null {
      return Error(500, NullBodyMessage);
    }
    var customer := ReadCustomer(body.value);
    if customer.None? {
      return Error(400, "Email and name are required");
    }
    var c := customer.value;
    var created := stripe.createSession(SessionRequestFor(c, appUrl));
    if created.Failure? {
      return Error(500, CreateFailureMessage(created.error));
    }
    var session := created.value;
    // A failed insert is only reported to the console; the flow goes on.
    var _ := db.InsertPayment(PaymentRow(newId, c.email, c.name, session.id, Pending), fault);
    db.LogEvent("checkout_initiated", InitiatedPayload(session.id, c));
    resp := Ok(CheckoutReply(session));
  }

  /** The session as the GET returns it: id, payment_status,
      customer_details and metadata, and nothing else. */
  function SessionView(session: StripeObject): (r: Object)
    ensures r.Keys <= {"id", "payment_status", "customer_details", "metadata"}
    ensures "id" in r && r["id"] == Str(session.id)
    ensures Mirrors(r, "payment_status", Prop(session, "payment_status"))
    ensures Mirrors(r, "customer_details", Prop(session, "customer_details"))
    ensures Mirrors(r, "metadata", Prop(session, "metadata"))
  {
    var view := map["id" := Str(session.id)];
    var view := With(view, "payment_status", Prop(session, "payment_status"));
    var view := With(view, "customer_details", Prop(session, "customer_details"));
    With(view, "metadata", Prop(session, "metadata"))
  }

  /** GET /api/checkout?session_id=...; `sessionId` is the query parameter
      (None when absent). The database is not consulted. */
  function Retrieve(sessionId: Option<string>, stripe: Provider): (r: Response)
    ensures sessionId == None || sessionId == Some("") ==> r == Error(400, "Missing session_id parameter")
    ensures sessionId.Some? && sessionId.value != "" && stripe.retrieveSession(sessionId.value).Failure? ==>
      r == Error(500, "Failed to retrieve session")
    ensures sessionId.Some? && sessionId.value != "" && stripe.retrieveSession(sessionId.value).Success? ==>
      && r.status == 200 && r.body.Obj? && r.body.fields.Keys == {"session"}
      && r.body.fields["session"] == Obj(SessionView(stripe.retrieveSession(sessionId.value).value))
  {
    if sessionId == None || sessionId == Some("") then Error(400, "Missing session_id parameter")
    else
      var retrieved := stripe.retrieveSession(sessionId.value);
      if retrieved.Failure? then Error(500, "Failed to retrieve session")
      else Ok(map["session" := Obj(SessionView(retrieved.value))])
  }
}
