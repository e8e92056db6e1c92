/** The booking service's two transactional operations.

    Each call runs inside one database transaction in the source, so each is
    modelled as one atomic step: a `Failure` carries no state, and the caller
    keeps the state it had. */
module BookingService {
  import opened Wrappers
  import opened Records
  import opened TicketRepository
  import opened Ledger

  /** How long a new booking holds its tickets, in seconds (15 minutes). */
  const HoldSeconds: int := 15 * 60

  /** The booking service's database: the events that exist, the ticket
      table and the booking table. */
  datatype BookingDb = BookingDb(
    events: set<Uuid>,
    tickets: Tickets,
    bookings: map<Uuid, Booking>)

  datatype BookingError =
    | QuantityNotPositive
    | EventNotFound
    | TicketNotFound
    | TicketEventMismatch
    | InsufficientQuota
    | InsertFailed
    | BookingNotFound
    | NotPending
    | InvalidStatus

  /** Every check `CreateBooking` makes before it writes, in the order it makes them. */
  predicate CreateAdmits(db: BookingDb, eventId: Uuid, ticketId: Uuid, quantity: int)
  {
    && quantity > 0
    && eventId in db.events
    && ticketId in db.tickets
    && db.tickets[ticketId].eventId == eventId
    && db.tickets[ticketId].quota >= quantity
  }

  /** The booking row `CreateBooking` inserts, before the insert hook. */
  function NewBooking(userId: Uuid, eventId: Uuid, ticketId: Uuid, price: int,
                      quantity: int, now: int): Booking
  {
    Booking(NilUuid, userId, eventId, ticketId, quantity, price * quantity,
            BookingPending, Some(now + HoldSeconds), now)
  }

  /** Reserves `quantity` tickets of `ticketId` for `userId` as a PENDING booking.
      `now` is the clock and `freshId` the identifier the insert hook draws;
      an insert whose identifier is already taken fails like any other write. */
  function CreateBooking(db: BookingDb, userId: Uuid, eventId: Uuid, ticketId: Uuid,
                         quantity: int, now: int, freshId: Uuid)
    : (r: Result<(BookingDb, Booking), BookingError>)
    // the failures, in the order the checks are made
    ensures r == Failure(QuantityNotPositive) <==> quantity <= 0
    ensures r == Failure(EventNotFound) <==> quantity > 0 && eventId !in db.events
    ensures r == Failure(TicketNotFound)
        <==> quantity > 0 && eventId in db.events && ticketId !in db.tickets
    ensures r == Failure(TicketEventMismatch)
        <==> quantity > 0 && eventId in db.events && ticketId in db.tickets
             && db.tickets[ticketId].eventId != eventId
    ensures r == Failure(InsufficientQuota)
        <==> quantity > 0 && eventId in db.events && ticketId in db.tickets
             && db.tickets[ticketId].eventId == eventId
             && db.tickets[ticketId].quota < quantity
    ensures r == Failure(InsertFailed)
        <==> CreateAdmits(db, eventId, ticketId, quantity) && freshId in db.bookings
    ensures r.Success? <==> CreateAdmits(db, eventId, ticketId, quantity) && freshId !in db.bookings
    // the inserted booking
    ensures r.Success? ==>
      var (db', b) := r.value;
      && b.id == freshId
      && b.userId == userId && b.eventId == eventId && b.ticketId == ticketId
      && b.quantity == quantity
      && b.totalAmount == db.tickets[ticketId].price * quantity
      && b.status == BookingPending
      && b.expiredAt == Some(now + HoldSeconds)
      && b.createdAt == now
      && db'.bookings == db.bookings[freshId := b]
    // the quota taken
    ensures r.Success? ==>
      var db' := r.value.0;
      && db'.events == db.events
      && OnlyQuotaOf(db.tickets, db'.tickets, ticketId)
      && db'.tickets[ticketId].quota == db.tickets[ticketId].quota - quantity
      && db'.tickets[ticketId].quota >= 0
  {
    if quantity <= 0 then Failure(QuantityNotPositive)
    else if eventId !in db.events then Failure(EventNotFound)
    else
      match FindByIdForUpdate(db.tickets, ticketId)
      case Failure(_) => Failure(TicketNotFound)
      case Success(t) =>
        if t.eventId != eventId then Failure(TicketEventMismatch)
        else if t.quota < quantity then Failure(InsufficientQuota)
        else
          var b := BookingBeforeCreate(NewBooking(userId, eventId, ticketId, t.price, quantity, now), freshId);
          if b.id in db.bookings then Failure(InsertFailed)
          else
            Success((db.(bookings := db.bookings[b.id := b],
                         tickets := ReduceQuota(db.tickets, ticketId, quantity)), b))
  }

  /** The guarded transition out of PENDING. CONFIRMED keeps the tickets
      consumed; CANCELLED gives the booking's quantity back to its ticket. */
  function UpdateBookingStatus(db: BookingDb, id: Uuid, target: string)
    : (r: Result<BookingDb, BookingError>)
    ensures r == Failure(BookingNotFound) <==> id !in db.bookings
    ensures r == Failure(NotPending)
        <==> id in db.bookings && db.bookings[id].status != BookingPending
    ensures id in db.bookings && db.bookings[id].status == BookingPending ==>
      var b := db.bookings[id];
      if target == "CONFIRMED" then
        r == Success(db.(bookings := db.bookings[id := b.(status := Confirmed)]))
      else if target == "CANCELLED" then
        if b.ticketId !in db.tickets then r == Failure(TicketNotFound)
        else
          && r.Success?
          && r.value.events == db.events
          && r.value.bookings == db.bookings[id := b.(status := Cancelled)]
          && OnlyQuotaOf(db.tickets, r.value.tickets, b.ticketId)
          && r.value.tickets[b.ticketId].quota == db.tickets[b.ticketId].quota + b.quantity
      else
        r == Failure(InvalidStatus)
  {
    if id !in db.bookings then Failure(BookingNotFound)
    else
      var b := db.bookings[id];
      if b.status != BookingPending then Failure(NotPending)
      else if target == "CONFIRMED" then
        Success(db.(bookings := db.bookings[id := b.(status := Confirmed)]))
      else if target == "CANCELLED" then
        match FindByIdForUpdate(db.tickets, b.ticketId)
        case Failure(_) => Failure(TicketNotFound)
        case Success(_) =>
          Success(db.(bookings := db.bookings[id := b.(status := Cancelled)],
                      tickets := IncreaseQuota(db.tickets, b.ticketId, b.quantity)))
      else Failure(InvalidStatus)
  }

  // ---------------------------------------------------------------------------
  // The inventory invariant

  /** No quota is negative and every booking is for a positive quantity. */
  ghost predicate Valid(db: BookingDb)
  {
    && (forall t :: t in db.tickets ==> db.tickets[t].quota >= 0)
    && (forall k :: k in db.bookings ==> db.bookings[k].quantity > 0)
  }

  /** What a ticket category started with: what is still for sale plus what
      the bookings hold. */
  ghost function Stock(db: BookingDb, t: Uuid): int
    requires t in db.tickets
  {
    db.tickets[t].quota + HeldQty(db.bookings, t)
  }

  /** `db'` has the same ticket categories as `db`, each with the same stock. */
  ghost predicate Conserves(db: BookingDb, db': BookingDb)
  {
    && db'.tickets.Keys == db.tickets.Keys
    && forall t :: t in db.tickets ==> Stock(db', t) == Stock(db, t)
  }

  lemma CreateBookingConserves(db: BookingDb, userId: Uuid, eventId: Uuid, ticketId: Uuid,
                               quantity: int, now: int, freshId: Uuid)
    requires Valid(db)
    requires CreateBooking(db, userId, eventId, ticketId, quantity, now, freshId).Success?
    ensures var db' := CreateBooking(db, userId, eventId, ticketId, quantity, now, freshId).value.0;
            Valid(db') && Conserves(db, db')
  {
    var (db', b) := CreateBooking(db, userId, eventId, ticketId, quantity, now, freshId).value;
    forall t | t in db.tickets
      ensures Stock(db', t) == Stock(db, t)
    {
      HeldUpdate(db.bookings, freshId, b, t);
    }
  }

  lemma UpdateBookingStatusConserves(db: BookingDb, id: Uuid, target: string)
    requires Valid(db)
    requires UpdateBookingStatus(db, id, target).Success?
    ensures var db' := UpdateBookingStatus(db, id, target).value;
            Valid(db') && Conserves(db, db')
  {
    var db' := UpdateBookingStatus(db, id, target).value;
    var b := db.bookings[id];
    forall t | t in db.tickets
      ensures Stock(db', t) == Stock(db, t)
    {
      HeldUpdate(db.bookings, id, db'.bookings[id], t);
    }
  }

  /** A booking leaves PENDING at most once: after any successful transition,
      every further transition of the same booking is refused, so a repeated
      webhook changes nothing. */
  lemma TransitionAtMostOnce(db: BookingDb, id: Uuid, first: string, again: string)
    requires UpdateBookingStatus(db, id, first).Success?
    ensures UpdateBookingStatus(UpdateBookingStatus(db, id, first).value, id, again)
         == Failure(NotPending)
  {
  }

  /** Cancelling and then trying to confirm leaves the quota where the cancel
      put it: a late success notice does not take the tickets again. */
  lemma CancelReleasesExactlyOnce(db: BookingDb, id: Uuid)
    requires id in db.bookings && db.bookings[id].status == BookingPending
    requires db.bookings[id].ticketId in db.tickets
    ensures var b := db.bookings[id];
            var db' := UpdateBookingStatus(db, id, "CANCELLED").value;
            && db'.tickets[b.ticketId].quota == db.tickets[b.ticketId].quota + b.quantity
            && UpdateBookingStatus(db', id, "CANCELLED") == Failure(NotPending)
            && UpdateBookingStatus(db', id, "CONFIRMED") == Failure(NotPending)
  {
  }
}
