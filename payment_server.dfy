/**
 * The server's two payment endpoints.
 *
 * `/create-order` turns a donation amount in rupees into an order request for
 * the payment provider (amount in paise, auto-capture) and hands back the
 * provider's order. `/verify-payment` recomputes the provider's signature,
 * a keyed hash of `orderId + "|" + paymentId`, and accepts the payment iff it
 * equals the signature supplied; only then, and only when an email was given,
 * a confirmation mail is requested.
 *
 * The provider's `orders.create` call and HMAC-SHA256 (RFC 2104 over
 * SHA-256, hex digest) are parameters: the model says what is passed to them
 * and how their answers are used, not what they compute.
 */
module PaymentServer {
  import opened JsValues

  type Notes = map<string, string>

  /** The body of a `/create-order` request; a missing field is `None`. */
  datatype CreateOrderRequest = CreateOrderRequest(
    amount: Option<int>,
    currency: Option<string>,
    receipt: Option<string>,
    notes: Option<Notes>)

  /** What the server sends to the provider's `orders.create`. */
  datatype OrderOptions = OrderOptions(
    amount: int,
    currency: string,
    receipt: string,
    notes: Notes,
    paymentCapture: int)

  /** The provider's order descriptor, returned to the client unchanged. */
  datatype Order = Order(id: string, amount: int, currency: string, receipt: string, notes: Notes)

  /** The outcome of the provider call: an order, or a rejected promise. */
  datatype ProviderResult = Created(order: Order) | ProviderFailed

  datatype CreateOrderResponse = AmountRequired | OrderCreated(order: Order) | CreateOrderFailed
  {
    function Status(): int
    {
      match this
      case AmountRequired => 400
      case OrderCreated(_) => 200
      case CreateOrderFailed => 500
    }
  }

  const DefaultCurrency: string := "INR"
  const DefaultReceipt: string := "donation_receipt"

  /**
   * The options `/create-order` builds, or `None` when the amount is falsy
   * and the request is refused before the provider is called. Destructuring
   * defaults apply to absent fields only.
   */
  function OrderOptionsFor(req: CreateOrderRequest): (r: Option<OrderOptions>)
    ensures r.None? <==> !NumberTruthy(req.amount)
    ensures r.Some? ==> r.value.amount % 100 == 0 && r.value.amount / 100 == req.amount.value && r.value.amount != 0
    ensures r.Some? ==> r.value.currency == (if req.currency.None? then "INR" else req.currency.value)
    ensures r.Some? ==> r.value.receipt == (if req.receipt.None? then "donation_receipt" else req.receipt.value)
    ensures r.Some? ==> r.value.notes == (if req.notes.None? then map[] else req.notes.value)
    ensures r.Some? ==> r.value.paymentCapture == 1
  {
    if !NumberTruthy(req.amount) then None
    else
      var currency := match req.currency case None => DefaultCurrency case Some(c) => c;
      var receipt := match req.receipt case None => DefaultReceipt case Some(c) => c;
      var notes := match req.notes case None => map[] case Some(n) => n;
      Some(OrderOptions(req.amount.value * 100, currency, receipt, notes, 1))
  }

  /** The `/create-order` handler, with `provider` standing for `razorpay.orders.create`. */
  function CreateOrder(req: CreateOrderRequest, provider: OrderOptions -> ProviderResult): (r: CreateOrderResponse)
    ensures r == AmountRequired <==> !NumberTruthy(req.amount)
    ensures r.OrderCreated? <==> NumberTruthy(req.amount) && provider(OrderOptionsFor(req).value).Created?
    ensures r.OrderCreated? ==> r.order == provider(OrderOptionsFor(req).value).order
  {
    match OrderOptionsFor(req)
    case None => AmountRequired
    case Some(options) =>
      match provider(options)
      case Created(order) => OrderCreated(order)
      case ProviderFailed => CreateOrderFailed
  }

  /** A refused order does not depend on the provider at all: no call is made. */
  lemma RefusedOrderIgnoresProvider(req: CreateOrderRequest, p: OrderOptions -> ProviderResult, q: OrderOptions -> ProviderResult)
    requires !NumberTruthy(req.amount)
    ensures CreateOrder(req, p) == CreateOrder(req, q) == AmountRequired
  {
  }

  // ---------------------------------------------------------------------------
  // /verify-payment
  // ---------------------------------------------------------------------------

  /** The body of a `/verify-payment` request; a missing field is `None`. */
  datatype PaymentRequest = PaymentRequest(
    orderId: Option<string>,
    paymentId: Option<string>,
    signature: Option<string>,
    userId: Option<string>,
    amount: Option<int>,
    email: Option<string>)

  /** The donation confirmation the server asks the mail transport to send. */
  datatype ConfirmationEmail = ConfirmationEmail(to: string, amount: Option<int>, paymentId: Option<string>)

  datatype VerifyPaymentResponse =
    | PaymentVerified(paymentId: Option<string>, confirmation: Option<ConfirmationEmail>)
    | InvalidSignature
    | VerificationError
  {
    function Status(): int
    {
      match this
      case PaymentVerified(_, _) => 200
      case InvalidSignature => 400
      case VerificationError => 500
    }
  }

  /** The message the provider signs: `orderId + "|" + paymentId`, with `undefined` spelled out. */
  function SignedPayload(orderId: Option<string>, paymentId: Option<string>): string
  {
    ToJsString(orderId) + "|" + ToJsString(paymentId)
  }

  /**
   * The `/verify-payment` handler. `hmac(key, message)` is the hex digest of
   * HMAC-SHA256; `secret` is the provider key secret from the environment,
   * absent when unset, in which case computing the digest throws and the
   * handler answers 500.
   */
  function VerifyPayment(hmac: (string, string) -> string, secret: Option<string>, req: PaymentRequest): (r: VerifyPaymentResponse)
    ensures r.VerificationError? <==> secret.None?
    ensures r.PaymentVerified? <==>
      secret.Some? && req.signature == Some(hmac(secret.value, SignedPayload(req.orderId, req.paymentId)))
    ensures r.PaymentVerified? ==> r.paymentId == req.paymentId
    ensures r.PaymentVerified? ==> (r.confirmation.Some? <==> StringTruthy(req.email))
    ensures r.PaymentVerified? && r.confirmation.Some? ==>
      r.confirmation.value == ConfirmationEmail(req.email.value, req.amount, req.paymentId)
  {
    match secret
    case None => VerificationError
    case Some(key) =>
      var generated := hmac(key, SignedPayload(req.orderId, req.paymentId));
      if req.signature == Some(generated) then
        var confirmation := if StringTruthy(req.email) then Some(ConfirmationEmail(req.email.value, req.amount, req.paymentId)) else None;
        PaymentVerified(req.paymentId, confirmation)
      else InvalidSignature
  }

  /** The user id and the amount play no part in the verdict: only the two ids and the signature do. */
  lemma VerdictIgnoresUserAndAmount(hmac: (string, string) -> string, secret: Option<string>, req: PaymentRequest, userId: Option<string>, amount: Option<int>)
    ensures VerifyPayment(hmac, secret, req).PaymentVerified? ==
            VerifyPayment(hmac, secret, req.(userId := userId, amount := amount)).PaymentVerified?
  {
  }

  /** When neither order id contains `|`, the signed message determines both ids. */
  lemma SignedPayloadInjective(o1: string, p1: string, o2: string, p2: string)
    requires '|' !in o1 && '|' !in o2
    requires SignedPayload(Some(o1), Some(p1)) == SignedPayload(Some(o2), Some(p2))
    ensures o1 == o2 && p1 == p2
  {
    var s := o1 + "|" + p1;
    // The first `|` of the message sits right after the order id, in both readings.
    assert s[|o1|] == '|' && forall i :: 0 <= i < |o1| ==> s[i] == o1[i] != '|';
    assert s[|o2|] == '|' && forall i :: 0 <= i < |o2| ==> s[i] == o2[i] != '|';
    assert o1 == s[..|o1|] == o2;
    assert p1 == s[|o1| + 1..] == p2;
  }

  /**
   * The separator is not escaped: for any strings `o`, `m`, `p`, a signature
   * issued for order `o|m` and payment `p` is also accepted for order `o` and
   * payment `m|p`, and the reverse.
   */
  lemma SignatureSharedAcrossSplits(hmac: (string, string) -> string, secret: Option<string>, req: PaymentRequest, o: string, m: string, p: string)
    ensures SignedPayload(Some(o + "|" + m), Some(p)) == SignedPayload(Some(o), Some(m + "|" + p))
    ensures VerifyPayment(hmac, secret, req.(orderId := Some(o + "|" + m), paymentId := Some(p))).PaymentVerified? ==
            VerifyPayment(hmac, secret, req.(orderId := Some(o), paymentId := Some(m + "|" + p))).PaymentVerified?
  {
    assert o + "|" + m + "|" + p == o + "|" + (m + "|" + p);
  }
}
