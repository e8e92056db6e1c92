/** The payment service's HTTP handlers, reduced to what they decide: the
    request checks made before the service is called, the gateway status
    allow-list, and the routing of booking events. */
module PaymentHandler {
  import opened Wrappers
  import opened Records
  import opened PaymentService

  datatype HandlerError =
    | MissingFields
    | InvalidBookingId
    | InvalidPaymentId
    | StatusRequired
    | StatusNotAllowed
    | UnknownEvent
    | Service(cause: PaymentError)

  /** The statuses the gateway webhook accepts. */
  const GatewayStatuses: set<string> := {"PENDING", "PAID", "FAILED", "EXPIRED"}

  function ServiceFailure<T>(r: Result<T, PaymentError>): Result<T, HandlerError>
  {
    match r
    case Success(v) => Success(v)
    case Failure(e) => Failure(Service(e))
  }

  /** `POST /payments`. `fetch` is the booking service's answer to a booking
      lookup (`None` when it is absent or cannot be reached). */
  function CreatePayment(ps: Payments, bookingId: RawId, amount: int, paymentMethod: string,
                         fetch: Uuid -> Option<Booking>, now: int, freshId: Uuid)
    : (r: Result<(Payments, Payment), HandlerError>)
    ensures r == Failure(MissingFields)
        <==> bookingId.Blank? || amount <= 0 || paymentMethod == ""
    ensures r == Failure(InvalidBookingId)
        <==> bookingId.Unparsable? && amount > 0 && paymentMethod != ""
    ensures bookingId.Parsed? && amount > 0 && paymentMethod != "" ==>
      r == ServiceFailure(PaymentService.CreatePayment(ps, bookingId.id, amount, paymentMethod,
                                                       fetch(bookingId.id), now, freshId))
  {
    if bookingId.Blank? || amount <= 0 || paymentMethod == "" then Failure(MissingFields)
    else if bookingId.Unparsable? then Failure(InvalidBookingId)
    else
      ServiceFailure(PaymentService.CreatePayment(ps, bookingId.id, amount, paymentMethod,
                                                  fetch(bookingId.id), now, freshId))
  }

  /** `PUT /payments/{id}/status`: the administrative overwrite. */
  function UpdatePaymentStatus(ps: Payments, id: RawId, status: string, now: int)
    : (r: Result<Payments, HandlerError>)
    ensures r == Failure(InvalidPaymentId) <==> !id.Parsed?
    ensures r == Failure(StatusRequired) <==> id.Parsed? && status == ""
    ensures id.Parsed? && status != "" ==>
      r == ServiceFailure(PaymentService.UpdatePaymentStatus(ps, id.id, status, now))
  {
    if !id.Parsed? then Failure(InvalidPaymentId)
    else if status == "" then Failure(StatusRequired)
    else ServiceFailure(PaymentService.UpdatePaymentStatus(ps, id.id, status, now))
  }

  /** The checks of the gateway webhook, in their order: the id is parsed
      BEFORE the emptiness check, so an empty id is reported as a malformed one. */
  function CheckGatewayRequest(paymentId: RawId, status: string)
    : (r: Result<(Uuid, PaymentStatus), HandlerError>)
    ensures r == Failure(InvalidPaymentId) <==> !paymentId.Parsed?
    ensures r == Failure(StatusRequired) <==> paymentId.Parsed? && status == ""
    ensures r == Failure(StatusNotAllowed)
        <==> paymentId.Parsed? && status != "" && status !in GatewayStatuses
    ensures r.Success? <==> paymentId.Parsed? && status in GatewayStatuses
    ensures r.Success? ==> r.value.0 == paymentId.id && r.value.1.Label() == status
  {
    if !paymentId.Parsed? then Failure(InvalidPaymentId)
    else if status == "" then Failure(StatusRequired)
    else
      match ParsePaymentStatus(status)
      case None => Failure(StatusNotAllowed)
      case Some(st) => Success((paymentId.id, st))
  }

  /** `POST /payments/webhook/payment-gateway`. */
  function HandlePaymentGatewayWebhook(ps: Payments, paymentId: RawId, status: string, now: int,
                                       notified: bool, saved: bool)
    : (r: Result<Payments, HandlerError>)
    ensures CheckGatewayRequest(paymentId, status).Failure? ==>
      r == Failure(CheckGatewayRequest(paymentId, status).error)
    ensures CheckGatewayRequest(paymentId, status).Success? ==>
      var (id, st) := CheckGatewayRequest(paymentId, status).value;
      r == ServiceFailure(PaymentService.HandlePaymentGatewayWebhook(ps, id, st, now, notified, saved))
  {
    match CheckGatewayRequest(paymentId, status)
    case Failure(e) => Failure(e)
    case Success((id, st)) =>
      ServiceFailure(PaymentService.HandlePaymentGatewayWebhook(ps, id, st, now, notified, saved))
  }

  /** Whether a booking event asks for the booking's payment to be expired. */
  predicate ExpiresPayment(event: string)
  {
    event in {"booking.expired", "booking.cancelled"}
  }

  /** `POST /payments/webhook/booking`: a booking that expired or was
      cancelled expires its payment; any other event is refused. */
  function HandleBookingWebhook(ps: Payments, event: string, bookingId: RawId, now: int)
    : (r: Result<Payments, HandlerError>)
    ensures r == Failure(MissingFields) <==> bookingId.Blank? || event == ""
    ensures r == Failure(InvalidBookingId) <==> bookingId.Unparsable? && event != ""
    ensures r == Failure(UnknownEvent)
        <==> bookingId.Parsed? && event != "" && !ExpiresPayment(event)
    ensures r.Success? <==> bookingId.Parsed? && ExpiresPayment(event)
    ensures r.Success? ==> r.value == HandleBookingExpired(ps, bookingId.id, now)
  {
    if bookingId.Blank? || event == "" then Failure(MissingFields)
    else if bookingId.Unparsable? then Failure(InvalidBookingId)
    else if ExpiresPayment(event) then Success(HandleBookingExpired(ps, bookingId.id, now))
    else Failure(UnknownEvent)
  }

  // ---------------------------------------------------------------------------
  // Properties

  /** Both booking events route to the same expiry, with the same effect. */
  lemma ExpiredAndCancelledAgree(ps: Payments, bookingId: Uuid, now: int)
    ensures HandleBookingWebhook(ps, "booking.expired", Parsed(bookingId), now)
         == HandleBookingWebhook(ps, "booking.cancelled", Parsed(bookingId), now)
  {
  }

  /** An empty payment id never reaches the emptiness check: it is refused as
      a malformed id. */
  lemma EmptyGatewayIdIsMalformed(ps: Payments, status: string, now: int, n: bool, s: bool)
    ensures HandlePaymentGatewayWebhook(ps, Blank, status, now, n, s) == Failure(InvalidPaymentId)
  {
  }
}
