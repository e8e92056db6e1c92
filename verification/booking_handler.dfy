/** The booking service's HTTP handlers, reduced to what they decide: the
    request checks they make before calling the service, the manual status
    allow-list, and how a payment event is turned into a booking transition. */
module BookingHandler {
  import opened Wrappers
  import opened Records
  import opened BookingService

  datatype HandlerError =
    | MissingToken
    | AuthFailed
    | MissingFields
    | InvalidEventId
    | InvalidTicketId
    | InvalidUserId
    | InvalidBookingId
    | StatusRequired
    | StatusNotAllowed
    | UnknownEvent
    | Service(cause: BookingError)

  /** The HTTP status each refusal is answered with. */
  function StatusCode(e: HandlerError): int
  {
    if e == MissingToken || e == AuthFailed then 401 else 400
  }

  /** The statuses the manual status endpoint lets through to the service. */
  const ManualStatuses: set<string> := {"PENDING", "PAID", "CONFIRMED", "CANCELLED"}

  function ServiceFailure<T>(r: Result<T, BookingError>): Result<T, HandlerError>
  {
    match r
    case Success(v) => Success(v)
    case Failure(e) => Failure(Service(e))
  }

  /** `POST /bookings`. `authHeader` is the Authorization header and `user`
      the identity service's answer for it (`None` when it refused), given
      as the raw user-id text it returned. */
  function CreateBooking(db: BookingDb, authHeader: string, user: Option<RawId>,
                         eventId: RawId, ticketId: RawId, quantity: int,
                         now: int, freshId: Uuid)
    : (r: Result<(BookingDb, Booking), HandlerError>)
    ensures r == Failure(MissingToken) <==> authHeader == ""
    ensures r == Failure(AuthFailed) <==> authHeader != "" && user.None?
    ensures r == Failure(MissingFields)
        <==> authHeader != "" && user.Some?
             && (eventId.Blank? || ticketId.Blank? || quantity <= 0)
    ensures r == Failure(InvalidEventId)
        <==> authHeader != "" && user.Some? && quantity > 0 && !ticketId.Blank?
             && eventId.Unparsable?
    ensures r == Failure(InvalidTicketId)
        <==> authHeader != "" && user.Some? && quantity > 0 && eventId.Parsed?
             && ticketId.Unparsable?
    ensures r == Failure(InvalidUserId)
        <==> authHeader != "" && user.Some? && quantity > 0 && eventId.Parsed?
             && ticketId.Parsed? && !user.value.Parsed?
    ensures r.Failure? && StatusCode(r.error) == 401 <==> authHeader == "" || user.None?
    ensures r.Success? <==>
      && authHeader != "" && user.Some? && user.value.Parsed?
      && eventId.Parsed? && ticketId.Parsed? && quantity > 0
      && BookingService.CreateBooking(db, user.value.id, eventId.id, ticketId.id,
                                      quantity, now, freshId).Success?
    ensures r.Success? ==>
      r.value == BookingService.CreateBooking(db, user.value.id, eventId.id, ticketId.id,
                                              quantity, now, freshId).value
  {
    if authHeader == "" then Failure(MissingToken)
    else if user.None? then Failure(AuthFailed)
    else if eventId.Blank? || ticketId.Blank? || quantity <= 0 then Failure(MissingFields)
    else if !eventId.Parsed? then Failure(InvalidEventId)
    else if !ticketId.Parsed? then Failure(InvalidTicketId)
    else if !user.value.Parsed? then Failure(InvalidUserId)
    else
      ServiceFailure(BookingService.CreateBooking(db, user.value.id, eventId.id, ticketId.id,
                                                  quantity, now, freshId))
  }

  /** `PUT /bookings/{id}/status`. */
  function UpdateBookingStatus(db: BookingDb, id: RawId, status: string)
    : (r: Result<BookingDb, HandlerError>)
    ensures r == Failure(InvalidBookingId) <==> !id.Parsed?
    ensures r == Failure(StatusRequired) <==> id.Parsed? && status == ""
    ensures r == Failure(StatusNotAllowed) <==> id.Parsed? && status != "" && status !in ManualStatuses
    ensures id.Parsed? && status in ManualStatuses ==>
      r == ServiceFailure(BookingService.UpdateBookingStatus(db, id.id, status))
  {
    if !id.Parsed? then Failure(InvalidBookingId)
    else if status == "" then Failure(StatusRequired)
    else if status !in ManualStatuses then Failure(StatusNotAllowed)
    else ServiceFailure(BookingService.UpdateBookingStatus(db, id.id, status))
  }

  /** The booking transition a payment event asks for. */
  function TargetFor(event: string): (r: Option<string>)
    ensures r == Some("CONFIRMED") <==> event == "payment.success"
    ensures r == Some("CANCELLED") <==> event in {"payment.failed", "payment.expired"}
    ensures r.None? <==> event !in {"payment.success", "payment.failed", "payment.expired"}
  {
    match event
    case "payment.success" => Some("CONFIRMED")
    case "payment.failed" => Some("CANCELLED")
    case "payment.expired" => Some("CANCELLED")
    case _ => None
  }

  /** `POST /bookings/webhook/payment`: the payment service's notification. */
  function HandlePaymentWebhook(db: BookingDb, event: string, bookingId: RawId)
    : (r: Result<BookingDb, HandlerError>)
    ensures r == Failure(MissingFields) <==> bookingId.Blank? || event == ""
    ensures r == Failure(InvalidBookingId) <==> bookingId.Unparsable? && event != ""
    ensures r == Failure(UnknownEvent)
        <==> bookingId.Parsed? && event != "" && TargetFor(event).None?
    ensures bookingId.Parsed? && TargetFor(event).Some? ==>
      r == ServiceFailure(BookingService.UpdateBookingStatus(db, bookingId.id, TargetFor(event).value))
  {
    if bookingId.Blank? || event == "" then Failure(MissingFields)
    else if bookingId.Unparsable? then Failure(InvalidBookingId)
    else
      match TargetFor(event)
      case None => Failure(UnknownEvent)
      case Some(target) => ServiceFailure(BookingService.UpdateBookingStatus(db, bookingId.id, target))
  }

  // ---------------------------------------------------------------------------
  // Properties

  /** PENDING and PAID pass the manual endpoint's allow-list, but the service
      never applies them: the call fails whatever state the booking is in. */
  lemma ManualPendingOrPaidNeverApplies(db: BookingDb, id: Uuid, status: string)
    requires status in {"PENDING", "PAID"}
    ensures UpdateBookingStatus(db, Parsed(id), status).Failure?
    ensures id in db.bookings && db.bookings[id].status == BookingPending ==>
      UpdateBookingStatus(db, Parsed(id), status) == Failure(Service(BookingService.InvalidStatus))
  {
  }

  /** A payment notification delivered twice is applied once: the repeat
      is refused with NotPending, whichever payment event it carries. */
  lemma DuplicateNotificationRefused(db: BookingDb, id: Uuid, event: string, event2: string)
    requires HandlePaymentWebhook(db, event, Parsed(id)).Success?
    requires TargetFor(event2).Some?
    ensures var db' := HandlePaymentWebhook(db, event, Parsed(id)).value;
            HandlePaymentWebhook(db', event2, Parsed(id)) == Failure(Service(NotPending))
  {
    TransitionAtMostOnce(db, id, TargetFor(event).value, TargetFor(event2).value);
  }
}
