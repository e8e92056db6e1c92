/** The two services side by side, driven by the requests that reach them.

    Every request is one atomic step of one service, except the gateway
    callback: the payment service first notifies the booking service, which
    runs its own step, and only then saves its payment row. The notification
    travels over HTTP and can be lost on the way there (`Dropped`), or be
    applied with its reply lost on the way back (`ReplyLost`). */
module Saga {
  import opened Wrappers
  import opened Records
  import BookingService
  import PaymentService
  import BookingHandler
  import PaymentHandler

  datatype System = System(db: BookingService.BookingDb, payments: PaymentService.Payments)

  datatype Delivery = Dropped | Delivered | ReplyLost

  /** The requests the two services serve. `user` is the identity service's
      answer for `authHeader`; `reachable` whether the payment service's
      booking lookup gets through. */
  datatype Request =
    | CreateBooking(authHeader: string, user: Option<RawId>, eventId: RawId, ticketId: RawId,
                    quantity: int, now: int, freshId: Uuid)
    | SetBookingStatus(bookingId: RawId, status: string)
    | PaymentWebhook(event: string, bookingId: RawId)
    | CreatePayment(bookingId: RawId, amount: int, paymentMethod: string, reachable: bool,
                    now: int, freshId: Uuid)
    | SetPaymentStatus(paymentId: RawId, status: string, now: int)
    | GatewayCallback(paymentId: RawId, status: string, now: int, delivery: Delivery, saved: bool)

  /** The state after a request and whether its caller was told it succeeded.
      A failed request can still have changed state (see `GatewayCallback`). */
  datatype Step = Step(sys: System, ok: bool)

  /** The booking service's answer to a lookup, as the payment service sees it. */
  function Fetch(db: BookingService.BookingDb, reachable: bool): Uuid -> Option<Booking>
  {
    id => if reachable && id in db.bookings then Some(db.bookings[id]) else None
  }

  /** Sends one notification to the booking service's payment webhook.
      Returns the booking state afterwards and whether the sender saw success:
      the booking transition the event names is applied unless the request was
      dropped, and the sender sees success only when it was applied and the
      reply came back. */
  function Deliver(db: BookingService.BookingDb, n: PaymentService.Notice, delivery: Delivery)
    : (r: (BookingService.BookingDb, bool))
    ensures delivery == Dropped ==> r == (db, false)
    ensures BookingHandler.TargetFor(n.event).None? ==> r == (db, false)
    ensures delivery != Dropped && BookingHandler.TargetFor(n.event).Some? ==>
      var u := BookingService.UpdateBookingStatus(db, n.bookingId,
                                                  BookingHandler.TargetFor(n.event).value);
      && r.0 == (if u.Success? then u.value else db)
      && r.1 == (delivery == Delivered && u.Success?)
    ensures r.1 ==>
      && n.bookingId in db.bookings && db.bookings[n.bookingId].status == BookingPending
      && n.bookingId in r.0.bookings && r.0.bookings[n.bookingId].status != BookingPending
  {
    if delivery == Dropped then (db, false)
    else
      var br := BookingHandler.HandlePaymentWebhook(db, n.event, Parsed(n.bookingId));
      var db' := if br.Success? then br.value else db;
      (db', delivery == Delivered && br.Success?)
  }

  /** The gateway callback: checks, notification, then the save. The payment
      row changes only when the caller is told success; the booking side
      changes exactly when a notice is sent, not dropped, and applied by the
      booking service, whatever happens to the reply and the save. */
  function Gateway(sys: System, paymentId: RawId, status: string, now: int,
                   delivery: Delivery, saved: bool): (r: Step)
    ensures PaymentHandler.CheckGatewayRequest(paymentId, status).Failure? ==> r == Step(sys, false)
    ensures PaymentHandler.CheckGatewayRequest(paymentId, status).Success? ==>
      var (id, st) := PaymentHandler.CheckGatewayRequest(paymentId, status).value;
      var ps := sys.payments;
      && (r.ok <==>
            && id in ps && ps[id].status == Pending
            && (st != Pending ==>
                  && delivery == Delivered
                  && BookingService.UpdateBookingStatus(
                       sys.db, ps[id].bookingId,
                       BookingHandler.TargetFor(PaymentService.EventFor(st).value).value).Success?)
            && saved)
      && (!r.ok ==> r.sys.payments == ps)
      && (r.ok ==>
            && r.sys.payments.Keys == ps.Keys
            && (forall k :: k in ps && k != id ==> r.sys.payments[k] == ps[k])
            && r.sys.payments[id].status == st)
      && (id !in ps || ps[id].status != Pending || st == Pending || delivery == Dropped ==>
            r.sys.db == sys.db)
      && (id in ps && ps[id].status == Pending && st != Pending && delivery != Dropped ==>
            var u := BookingService.UpdateBookingStatus(
                       sys.db, ps[id].bookingId,
                       BookingHandler.TargetFor(PaymentService.EventFor(st).value).value);
            r.sys.db == (if u.Success? then u.value else sys.db))
  {
    var notice :=
      match PaymentHandler.CheckGatewayRequest(paymentId, status)
      case Failure(_) => None
      case Success((id, st)) => PaymentService.GatewayNotice(sys.payments, id, st);
    var (db', notified) :=
      match notice
      case None => (sys.db, true)
      case Some(n) => Deliver(sys.db, n, delivery);
    var pr := PaymentHandler.HandlePaymentGatewayWebhook(sys.payments, paymentId, status, now,
                                                         notified, saved);
    Step(System(db', if pr.Success? then pr.value else sys.payments), pr.Success?)
  }

  /** Serves one request. */
  function Next(sys: System, req: Request): Step
  {
    match req
    case CreateBooking(auth, user, ev, t, q, now, nid) =>
      var r := BookingHandler.CreateBooking(sys.db, auth, user, ev, t, q, now, nid);
      if r.Success? then Step(sys.(db := r.value.0), true) else Step(sys, false)
    case SetBookingStatus(id, st) =>
      var r := BookingHandler.UpdateBookingStatus(sys.db, id, st);
      if r.Success? then Step(sys.(db := r.value), true) else Step(sys, false)
    case PaymentWebhook(ev, id) =>
      var r := BookingHandler.HandlePaymentWebhook(sys.db, ev, id);
      if r.Success? then Step(sys.(db := r.value), true) else Step(sys, false)
    case CreatePayment(id, amount, m, reachable, now, nid) =>
      var r := PaymentHandler.CreatePayment(sys.payments, id, amount, m, Fetch(sys.db, reachable),
                                            now, nid);
      if r.Success? then Step(sys.(payments := r.value.0), true) else Step(sys, false)
    case SetPaymentStatus(id, st, now) =>
      var r := PaymentHandler.UpdatePaymentStatus(sys.payments, id, st, now);
      if r.Success? then Step(sys.(payments := r.value), true) else Step(sys, false)
    case GatewayCallback(id, st, now, delivery, saved) =>
      Gateway(sys, id, st, now, delivery, saved)
  }

  /** Serves a sequence of requests one after the other. */
  function Run(sys: System, reqs: seq<Request>): System
    decreases |reqs|
  {
    if reqs == [] then sys else Run(Next(sys, reqs[0]).sys, reqs[1..])
  }

  // ---------------------------------------------------------------------------
  // The invariant

  /** Quotas are never negative, bookings are for positive quantities, and no
      booking has two payments. */
  ghost predicate Inv(sys: System)
  {
    && BookingService.Valid(sys.db)
    && PaymentService.OnePaymentPerBooking(sys.payments)
  }

  lemma BookingSidePreserved(db: BookingService.BookingDb, n: PaymentService.Notice, delivery: Delivery)
    requires BookingService.Valid(db)
    ensures var db' := Deliver(db, n, delivery).0;
            BookingService.Valid(db') && BookingService.Conserves(db, db')
  {
    if delivery != Dropped {
      var br := BookingHandler.HandlePaymentWebhook(db, n.event, Parsed(n.bookingId));
      if br.Success? {
        BookingService.UpdateBookingStatusConserves(db, n.bookingId,
                                                    BookingHandler.TargetFor(n.event).value);
      }
    }
  }

  /** Every request keeps the invariant, and keeps every ticket's stock: its
      quota plus what PENDING and CONFIRMED bookings hold of it. */
  lemma NextPreserves(sys: System, req: Request)
    requires Inv(sys)
    ensures Inv(Next(sys, req).sys)
    ensures BookingService.Conserves(sys.db, Next(sys, req).sys.db)
  {
    var sys' := Next(sys, req).sys;
    match req
    case CreateBooking(auth, user, ev, t, q, now, nid) =>
      if sys' != sys {
        BookingService.CreateBookingConserves(sys.db, user.value.id, ev.id, t.id, q, now, nid);
      }
    case SetBookingStatus(id, st) =>
      if sys' != sys {
        BookingService.UpdateBookingStatusConserves(sys.db, id.id, st);
      }
    case PaymentWebhook(ev, id) =>
      if sys' != sys {
        BookingService.UpdateBookingStatusConserves(sys.db, id.id, BookingHandler.TargetFor(ev).value);
      }
    case CreatePayment(id, amount, m, reachable, now, nid) =>
      if sys' != sys {
        PaymentService.CreatePaymentKeepsOnePerBooking(sys.payments, id.id, amount, m,
                                                       Fetch(sys.db, reachable)(id.id), now, nid);
      }
    case SetPaymentStatus(id, st, now) =>
    case GatewayCallback(id, st, now, delivery, saved) =>
      match PaymentHandler.CheckGatewayRequest(id, st)
      case Failure(_) =>
      case Success((pid, s)) =>
        match PaymentService.GatewayNotice(sys.payments, pid, s)
        case None =>
        case Some(n) => BookingSidePreserved(sys.db, n, delivery);
  }

  /** The invariant and every ticket's stock hold after any sequence of requests. */
  lemma {:induction false} RunPreserves(sys: System, reqs: seq<Request>)
    requires Inv(sys)
    ensures Inv(Run(sys, reqs))
    ensures BookingService.Conserves(sys.db, Run(sys, reqs).db)
    decreases |reqs|
  {
    if reqs != [] {
      var next := Next(sys, reqs[0]).sys;
      NextPreserves(sys, reqs[0]);
      RunPreserves(next, reqs[1..]);
    }
  }

  // ---------------------------------------------------------------------------
  // At most one transition

  /** A booking that has left PENDING keeps its status through any request,
      including repeated or late payment notifications. */
  lemma SettledBookingStays(sys: System, req: Request, id: Uuid)
    requires id in sys.db.bookings && sys.db.bookings[id].status != BookingPending
    ensures id in Next(sys, req).sys.db.bookings
    ensures Next(sys, req).sys.db.bookings[id].status == sys.db.bookings[id].status
  {
  }

  /** A payment that has left PENDING keeps its status through every request
      except the administrative overwrite, which has no guard. */
  lemma SettledPaymentStays(sys: System, req: Request, id: Uuid)
    requires id in sys.payments && sys.payments[id].status != Pending
    requires !req.SetPaymentStatus?
    ensures id in Next(sys, req).sys.payments
    ensures Next(sys, req).sys.payments[id].status == sys.payments[id].status
  {
  }

  // ---------------------------------------------------------------------------
  // The gateway callback, notification first

  /** A PAID callback that is delivered and saved settles both sides: the
      payment is PAID and stamped, its booking CONFIRMED, and the quota stays
      consumed. */
  lemma PaidCallbackSettlesBoth(sys: System, pid: Uuid, now: int)
    requires pid in sys.payments && sys.payments[pid].status == Pending
    requires var b := sys.payments[pid].bookingId;
             b in sys.db.bookings && sys.db.bookings[b].status == BookingPending
    ensures var r := Gateway(sys, Parsed(pid), "PAID", now, Delivered, true);
            var b := sys.payments[pid].bookingId;
            && r.ok
            && r.sys.payments[pid].status == Paid
            && r.sys.payments[pid].paidAt == Some(now)
            && r.sys.db.bookings[b].status == Confirmed
            && r.sys.db.tickets == sys.db.tickets
  {
  }

  /** A failed or expired callback that gets through cancels the booking and
      gives its quantity back to the ticket. */
  lemma FailedCallbackReleasesTickets(sys: System, pid: Uuid, status: string, now: int)
    requires status in {"FAILED", "EXPIRED"}
    requires pid in sys.payments && sys.payments[pid].status == Pending
    requires var b := sys.payments[pid].bookingId;
             && b in sys.db.bookings && sys.db.bookings[b].status == BookingPending
             && sys.db.bookings[b].ticketId in sys.db.tickets
    ensures var r := Gateway(sys, Parsed(pid), status, now, Delivered, true);
            var k := sys.payments[pid].bookingId;
            var b := sys.db.bookings[k];
            && r.ok
            && r.sys.payments[pid].status.Label() == status
            && r.sys.db.bookings[k].status == Cancelled
            && r.sys.db.tickets[b.ticketId].quota == sys.db.tickets[b.ticketId].quota + b.quantity
  {
  }

  /** A notification that does not get through, or whose reply is lost,
      fails the callback and leaves the payment row untouched. */
  lemma UnconfirmedNoticeKeepsPayment(sys: System, pid: Uuid, status: string, now: int,
                                      delivery: Delivery, saved: bool)
    requires status in {"PAID", "FAILED", "EXPIRED"}
    requires delivery != Delivered
    requires pid in sys.payments && sys.payments[pid].status == Pending
    ensures var r := Gateway(sys, Parsed(pid), status, now, delivery, saved);
            !r.ok && r.sys.payments == sys.payments
  {
  }

  /** The save comes after the notification: when it fails, the booking is
      already CONFIRMED while its payment is still PENDING, and every retry
      of the same callback fails, because the booking now refuses the notice. */
  lemma LostSaveStrandsPayment(sys: System, pid: Uuid, now: int,
                               now2: int, delivery2: Delivery, saved2: bool)
    requires pid in sys.payments && sys.payments[pid].status == Pending
    requires var b := sys.payments[pid].bookingId;
             b in sys.db.bookings && sys.db.bookings[b].status == BookingPending
    ensures var r := Gateway(sys, Parsed(pid), "PAID", now, Delivered, false);
            var b := sys.payments[pid].bookingId;
            && !r.ok
            && r.sys.db.bookings[b].status == Confirmed
            && r.sys.payments[pid].status == Pending
            && var retry := Gateway(r.sys, Parsed(pid), "PAID", now2, delivery2, saved2);
               !retry.ok && retry.sys.payments == r.sys.payments
  {
  }
}
