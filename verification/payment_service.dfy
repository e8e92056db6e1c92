/** The payment service's operations on its payment table.

    The booking lookup and the notification to the booking service are calls
    into another service; here they are parameters: the booking snapshot the
    lookup returned (`None` when it failed) and whether the notification call
    reported success. */
module PaymentService {
  import opened Wrappers
  import opened Records

  type Payments = map<Uuid, Payment>

  /** The payment methods `CreatePayment` accepts. */
  const PaymentMethods: set<string> := {"VA", "EWALLET", "QRIS"}

  datatype PaymentError =
    | AmountNotPositive
    | InvalidMethod
    | BookingNotFound
    | AlreadyExists
    | MissingExpiry
    | InsertFailed
    | PaymentNotFound
    | InvalidStatus
    | NotPending
    | NotifyFailed
    | SaveFailed

  /** A message to the booking service's payment webhook. */
  datatype Notice = Notice(event: string, paymentId: Uuid, bookingId: Uuid)

  predicate HasPaymentFor(ps: Payments, bookingId: Uuid)
  {
    exists k :: k in ps && ps[k].bookingId == bookingId
  }

  /** At most one payment references each booking. */
  ghost predicate OnePaymentPerBooking(ps: Payments)
  {
    forall j, k :: j in ps && k in ps && ps[j].bookingId == ps[k].bookingId ==> j == k
  }

  // ---------------------------------------------------------------------------
  // Lookup by booking: the first matching row in primary-key order

  /** `m` is the least element of `s`. */
  predicate IsLeast(m: nat, s: set<nat>)
  {
    m in s && forall x :: x in s ==> m <= x
  }

  lemma {:induction false} MinExists(s: set<nat>)
    requires s != {}
    ensures exists m :: IsLeast(m, s)
    decreases |s|
  {
    var y :| y in s;
    var rest := s - {y};
    if rest == {} {
      forall x | x in s
        ensures y <= x
      {
        assert x !in rest;
      }
      assert IsLeast(y, s);
    } else {
      assert s == rest + {y};
      MinExists(rest);
      var m :| IsLeast(m, rest);
      var least := if y < m then y else m;
      forall x | x in s
        ensures least <= x
      {
        if x != y {
          assert x in rest;
        }
      }
      assert IsLeast(least, s);
    }
  }

  function MinOf(s: set<nat>): (m: nat)
    requires s != {}
    ensures m in s && forall x :: x in s ==> m <= x
  {
    MinExists(s);
    var m :| IsLeast(m, s);
    m
  }

  /** The key of the payment `FindByBookingID` returns: the least id among the
      payments that reference the booking. */
  function FirstKeyFor(ps: Payments, bookingId: Uuid): (r: Option<Uuid>)
    ensures r.None? <==> !HasPaymentFor(ps, bookingId)
    ensures r.Some? ==>
      && r.value in ps && ps[r.value].bookingId == bookingId
      && forall k :: k in ps && ps[k].bookingId == bookingId ==> r.value <= k
  {
    var keys := set k | k in ps && ps[k].bookingId == bookingId;
    assert forall k :: k in ps && ps[k].bookingId == bookingId ==> k in keys;
    if keys == {} then None
    else
      var m := MinOf(keys);
      Some(m)
  }

  // ---------------------------------------------------------------------------
  // Operations

  /** Creates the PENDING payment for a booking. `booking` is what the lookup
      in the booking service returned; `freshId` the id the insert hook draws.
      A snapshot without an expiry is a nil dereference in the source; here it
      is a failure with nothing written. */
  function CreatePayment(ps: Payments, bookingId: Uuid, amount: int, paymentMethod: string,
                         booking: Option<Booking>, now: int, freshId: Uuid)
    : (r: Result<(Payments, Payment), PaymentError>)
    ensures r == Failure(AmountNotPositive) <==> amount <= 0
    ensures r == Failure(InvalidMethod) <==> amount > 0 && paymentMethod !in PaymentMethods
    ensures r == Failure(BookingNotFound)
        <==> amount > 0 && paymentMethod in PaymentMethods && booking.None?
    ensures r == Failure(AlreadyExists)
        <==> amount > 0 && paymentMethod in PaymentMethods && booking.Some?
             && HasPaymentFor(ps, bookingId)
    ensures r == Failure(MissingExpiry)
        <==> amount > 0 && paymentMethod in PaymentMethods && booking.Some?
             && !HasPaymentFor(ps, bookingId) && booking.value.expiredAt.None?
    ensures r == Failure(InsertFailed)
        <==> amount > 0 && paymentMethod in PaymentMethods && booking.Some?
             && !HasPaymentFor(ps, bookingId) && booking.value.expiredAt.Some? && freshId in ps
    ensures r.Success?
        <==> amount > 0 && paymentMethod in PaymentMethods && booking.Some?
             && !HasPaymentFor(ps, bookingId) && booking.value.expiredAt.Some? && freshId !in ps
    ensures r.Success? ==>
      var (ps', p) := r.value;
      && booking.Some? && !HasPaymentFor(ps, bookingId)
      && p.id == freshId && freshId !in ps
      && ps' == ps[freshId := p]
      && p.bookingId == bookingId
      && p.userId == booking.value.userId
      && p.amount == amount
      && p.currency == DefaultCurrency
      && p.paymentMethod == paymentMethod
      && p.status == Pending
      && p.expiredAt == booking.value.expiredAt && p.expiredAt.Some?
      && p.paidAt == None
  {
    if amount <= 0 then Failure(AmountNotPositive)
    else if paymentMethod !in PaymentMethods then Failure(InvalidMethod)
    else if booking.None? then Failure(BookingNotFound)
    else if HasPaymentFor(ps, bookingId) then Failure(AlreadyExists)
    else if booking.value.expiredAt.None? then Failure(MissingExpiry)
    else
      var p := PaymentBeforeCreate(
        Payment(NilUuid, bookingId, booking.value.userId, amount, DefaultCurrency,
                paymentMethod, Pending, booking.value.expiredAt, None, now, now),
        freshId);
      if p.id in ps then Failure(InsertFailed)
      else Success((ps[p.id := p], p))
  }

  /** The administrative status overwrite: no PENDING guard and no notification. */
  function UpdatePaymentStatus(ps: Payments, id: Uuid, status: string, now: int)
    : (r: Result<Payments, PaymentError>)
    ensures r == Failure(PaymentNotFound) <==> id !in ps
    ensures r == Failure(InvalidStatus) <==> id in ps && ParsePaymentStatus(status).None?
    ensures r.Success? <==> id in ps && ParsePaymentStatus(status).Some?
    ensures r.Success? ==>
      var p := ps[id];
      var st := ParsePaymentStatus(status).value;
      && r.value.Keys == ps.Keys
      && (forall k :: k in ps && k != id ==> r.value[k] == ps[k])
      && r.value[id].status.Label() == status
      && r.value[id].updatedAt == now
      && r.value[id].paidAt == (if st == Paid && p.paidAt.None? then Some(now) else p.paidAt)
      && r.value[id].(status := p.status, updatedAt := p.updatedAt, paidAt := p.paidAt) == p
  {
    if id !in ps then Failure(PaymentNotFound)
    else
      match ParsePaymentStatus(status)
      case None => Failure(InvalidStatus)
      case Some(st) =>
        var p := ps[id];
        var paidAt := if st == Paid && p.paidAt.None? then Some(now) else p.paidAt;
        Success(ps[id := p.(status := st, updatedAt := now, paidAt := paidAt)])
  }

  /** The event a gateway outcome is reported to the booking service with. */
  function EventFor(status: PaymentStatus): (r: Option<string>)
    ensures r == Some("payment.success") <==> status == Paid
    ensures r == Some("payment.failed") <==> status in {Failed, Expired}
    ensures r.None? <==> status == Pending
  {
    match status
    case Paid => Some("payment.success")
    case Failed => Some("payment.failed")
    case Expired => Some("payment.failed")
    case Pending => None
  }

  /** The notification `HandlePaymentGatewayWebhook` sends, if it gets that far. */
  function GatewayNotice(ps: Payments, paymentId: Uuid, status: PaymentStatus): (r: Option<Notice>)
    ensures r.Some? <==> paymentId in ps && ps[paymentId].status == Pending && status != Pending
    ensures r.Some? ==>
      && EventFor(status) == Some(r.value.event)
      && r.value.paymentId == ps[paymentId].id
      && r.value.bookingId == ps[paymentId].bookingId
  {
    if paymentId !in ps || ps[paymentId].status != Pending then None
    else
      match EventFor(status)
      case None => None
      case Some(ev) => Some(Notice(ev, ps[paymentId].id, ps[paymentId].bookingId))
  }

  /** The guarded gateway transition. The booking service is notified BEFORE
      the payment row is saved: `notified` is what that call reported and
      `saved` whether the save then succeeded. */
  function HandlePaymentGatewayWebhook(ps: Payments, paymentId: Uuid, status: PaymentStatus,
                                       now: int, notified: bool, saved: bool)
    : (r: Result<Payments, PaymentError>)
    ensures r == Failure(PaymentNotFound) <==> paymentId !in ps
    ensures r == Failure(NotPending) <==> paymentId in ps && ps[paymentId].status != Pending
    ensures r == Failure(NotifyFailed)
        <==> GatewayNotice(ps, paymentId, status).Some? && !notified
    ensures r == Failure(SaveFailed)
        <==> && paymentId in ps && ps[paymentId].status == Pending
             && (GatewayNotice(ps, paymentId, status).Some? ==> notified)
             && !saved
    ensures r.Success? <==>
      && paymentId in ps && ps[paymentId].status == Pending
      && (GatewayNotice(ps, paymentId, status).Some? ==> notified)
      && saved
    ensures r.Success? ==>
      var p := ps[paymentId];
      && r.value.Keys == ps.Keys
      && (forall k :: k in ps && k != paymentId ==> r.value[k] == ps[k])
      && r.value[paymentId].status == status
      && r.value[paymentId].updatedAt == now
      && r.value[paymentId].paidAt == (if status == Paid then Some(now) else p.paidAt)
      && r.value[paymentId].(status := p.status, updatedAt := p.updatedAt, paidAt := p.paidAt) == p
  {
    if paymentId !in ps then Failure(PaymentNotFound)
    else
      var p := ps[paymentId];
      if p.status != Pending then Failure(NotPending)
      else
        var paidAt := if status == Paid then Some(now) else p.paidAt;
        var p' := p.(status := status, updatedAt := now, paidAt := paidAt);
        if EventFor(status).Some? && !notified then Failure(NotifyFailed)
        else if !saved then Failure(SaveFailed)
        else Success(ps[paymentId := p'])
  }

  /** Expires the payment of a booking whose hold ran out, if it is still
      PENDING; a missing or already settled payment is left alone. */
  function HandleBookingExpired(ps: Payments, bookingId: Uuid, now: int): (r: Payments)
    ensures r.Keys == ps.Keys
    ensures FirstKeyFor(ps, bookingId).None? ==> r == ps
    ensures FirstKeyFor(ps, bookingId).Some? ==>
      var k := FirstKeyFor(ps, bookingId).value;
      && (forall j :: j in ps && j != k ==> r[j] == ps[j])
      && (ps[k].status != Pending ==> r == ps)
      && (ps[k].status == Pending ==>
            r[k] == ps[k].(status := Expired, updatedAt := now))
  {
    match FirstKeyFor(ps, bookingId)
    case None => ps
    case Some(k) =>
      if ps[k].status != Pending then ps
      else ps[k := ps[k].(status := Expired, updatedAt := now)]
  }

  // ---------------------------------------------------------------------------
  // Properties

  /** Sequential `CreatePayment` calls never give a booking a second payment. */
  lemma CreatePaymentKeepsOnePerBooking(ps: Payments, bookingId: Uuid, amount: int,
                                        paymentMethod: string, booking: Option<Booking>,
                                        now: int, freshId: Uuid)
    requires OnePaymentPerBooking(ps)
    requires CreatePayment(ps, bookingId, amount, paymentMethod, booking, now, freshId).Success?
    ensures OnePaymentPerBooking(
              CreatePayment(ps, bookingId, amount, paymentMethod, booking, now, freshId).value.0)
  {
  }

  /** Once a payment exists for a booking, a second request for it is refused
      and writes nothing, whatever its amount and method. */
  lemma SecondPaymentRefused(ps: Payments, bookingId: Uuid, amount: int, paymentMethod: string,
                             booking: Booking, now: int, freshId: Uuid,
                             amount2: int, method2: string, now2: int, freshId2: Uuid)
    requires CreatePayment(ps, bookingId, amount, paymentMethod, Some(booking), now, freshId).Success?
    requires amount2 > 0 && method2 in PaymentMethods
    ensures var ps' := CreatePayment(ps, bookingId, amount, paymentMethod, Some(booking), now, freshId).value.0;
            CreatePayment(ps', bookingId, amount2, method2, Some(booking), now2, freshId2)
              == Failure(AlreadyExists)
  {
    var ps' := CreatePayment(ps, bookingId, amount, paymentMethod, Some(booking), now, freshId).value.0;
    assert ps'[freshId].bookingId == bookingId;
  }

  /** The amount is never compared with the booking's total, and the
      booking's status is never looked at: a cancelled booking of total 150
      still gets a PENDING payment of 1. */
  lemma CreatePaymentIgnoresTotalAndStatus()
    ensures var b := Booking(5, 9, 2, 3, 2, 150, Cancelled, Some(900), 0);
            var r := CreatePayment(map[], 5, 1, "QRIS", Some(b), 10, 8);
            r.Success? && r.value.1.amount == 1 && r.value.1.status == Pending
  {
  }

  /** The administrative overwrite ignores the PENDING guard: a PAID payment
      can be put back to PENDING, and it keeps its paid-at stamp. */
  lemma OverwriteReopensSettledPayment(ps: Payments, id: Uuid, now: int)
    requires id in ps && ps[id].status == Paid
    ensures UpdatePaymentStatus(ps, id, "PENDING", now).Success?
    ensures UpdatePaymentStatus(ps, id, "PENDING", now).value[id].status == Pending
    ensures UpdatePaymentStatus(ps, id, "PENDING", now).value[id].paidAt == ps[id].paidAt
  {
  }

  /** After a successful gateway transition a repeated callback is refused,
      whatever status it reports. */
  lemma GatewayTransitionAtMostOnce(ps: Payments, id: Uuid, status: PaymentStatus, now: int,
                                    status2: PaymentStatus, now2: int, n2: bool, s2: bool)
    requires status != Pending
    requires HandlePaymentGatewayWebhook(ps, id, status, now, true, true).Success?
    ensures var ps' := HandlePaymentGatewayWebhook(ps, id, status, now, true, true).value;
            HandlePaymentGatewayWebhook(ps', id, status2, now2, n2, s2) == Failure(NotPending)
  {
  }

  /** A failed notification leaves the payment exactly as it was, so it stays
      PENDING even though the gateway reported an outcome. */
  lemma FailedNoticeKeepsPaymentPending(ps: Payments, id: Uuid, status: PaymentStatus, now: int, saved: bool)
    requires id in ps && ps[id].status == Pending && status != Pending
    ensures HandlePaymentGatewayWebhook(ps, id, status, now, false, saved) == Failure(NotifyFailed)
  {
  }

  lemma SameReferencesSameFirstKey(ps: Payments, ps': Payments, bookingId: Uuid)
    requires ps'.Keys == ps.Keys
    requires forall k :: k in ps ==> ps'[k].bookingId == ps[k].bookingId
    ensures FirstKeyFor(ps', bookingId) == FirstKeyFor(ps, bookingId)
  {
    var a := FirstKeyFor(ps, bookingId);
    var b := FirstKeyFor(ps', bookingId);
    if a.Some? && b.Some? {
      assert a.value <= b.value && b.value <= a.value;
    }
  }

  /** Expiring a booking's payment twice has the effect of expiring it once. */
  lemma HandleBookingExpiredIdempotent(ps: Payments, bookingId: Uuid, now: int, now2: int)
    ensures HandleBookingExpired(HandleBookingExpired(ps, bookingId, now), bookingId, now2)
         == HandleBookingExpired(ps, bookingId, now)
  {
    var ps1 := HandleBookingExpired(ps, bookingId, now);
    SameReferencesSameFirstKey(ps, ps1, bookingId);
  }
}
