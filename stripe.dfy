/** The payment provider as the handlers see it: its configuration constants,
    the shape of its objects, and its API calls as oracles. */
module Stripe {
  import opened Wrappers
  import opened Json

  /** STRIPE_CONFIG.products.onboarding_service: $497.00 in cents. */
  const Amount: int := 49700
  const Currency: string := "usd"
  const ProductName: string := "Premium Onboarding Service"
  const ProductDescription: string := "White-glove client onboarding setup with dedicated VA team"

  /** STRIPE_CONFIG.checkout. */
  const Mode: string := "payment"
  const BillingAddressCollection: string := "required"

  /** The redirect pair, templated on the NEXT_PUBLIC_APP_URL setting. */
  function SuccessUrl(appUrl: string): string {
    appUrl + "/next-steps?session_id={CHECKOUT_SESSION_ID}"
  }

  function CancelUrl(appUrl: string): string {
    appUrl + "/?cancelled=true"
  }

  /** A provider object (a checkout session or a payment intent): its id and
      its other properties as JSON. */
  datatype StripeObject = StripeObject(id: string, props: Object)

  /** `o.key`; None is `undefined`. */
  function Prop(o: StripeObject, key: string): Option<Value> {
    if key in o.props then Some(o.props[key]) else None
  }

  /** `session.customer_details?.email`. */
  function CustomerEmail(o: StripeObject): Option<Value> {
    var details := Prop(o, "customer_details");
    if details.Some? then Get(details.value, "email") else None
  }

  /** A verified webhook event: `event.type` and `event.data.object`. */
  datatype Event = Event(eventType: string, dataObject: StripeObject)

  datatype LineItem = LineItem(
    currency: string,
    productName: string,
    description: string,
    images: seq<string>,
    unitAmount: int,
    quantity: int)

  /** The parameters of `checkout.sessions.create`. */
  datatype SessionRequest = SessionRequest(
    paymentMethodTypes: seq<string>,
    mode: string,
    billingAddressCollection: string,
    lineItems: seq<LineItem>,
    customerEmail: Value,
    metadata: Object,
    successUrl: string,
    cancelUrl: string,
    automaticTax: bool,
    allowPromotionCodes: bool)

  /** The provider's API. A call that throws yields `Failure(e)`, where `e`
      is `Some(message)` for an `Error` instance and `None` for anything
      else thrown.
      - constructEvent(body, signature): the event when the signature
        verifies the raw body under the webhook secret, None when it throws;
      - createSession / retrieveSession: `checkout.sessions.create` and
        `checkout.sessions.retrieve`;
      - listSessionsByIntent: `checkout.sessions.list({ payment_intent, limit: 1 })`. */
  datatype Provider = Provider(
    constructEvent: (string, string) -> Option<Event>,
    createSession: SessionRequest -> Result<StripeObject, Option<string>>,
    retrieveSession: string -> Result<StripeObject, Option<string>>,
    listSessionsByIntent: string -> Result<seq<StripeObject>, Option<string>>)
}
