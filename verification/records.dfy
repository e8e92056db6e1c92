/** The three record stores of the saga: ticket categories and bookings (owned
    by the booking service) and payments (owned by the payment service).

    Identifiers are opaque 128-bit UUIDs; they are modelled as naturals, with 0
    standing for the all-zero `uuid.Nil`. The order of the naturals stands for
    the database's primary-key order. Money is kept in integer minor units and
    time in integer seconds. */
module Records {
  import opened Wrappers

  type Uuid = nat

  const NilUuid: Uuid := 0

  /** The default currency of a payment. */
  const DefaultCurrency: string := "IDR"

  /** An identifier as it arrives in a request or a path: empty, text that is
      not a UUID, or a UUID. Parsing the empty text fails like any other
      malformed text; `Blank` only keeps apart the handlers' emptiness checks. */
  datatype RawId = Blank | Unparsable | Parsed(id: Uuid)

  /** A ticket category of one event; `quota` is how many are still for sale. */
  datatype Ticket = Ticket(
    id: Uuid,
    eventId: Uuid,
    category: string,
    price: int,
    quota: int)

  datatype BookingStatus = BookingPending | Confirmed | Cancelled {
    /** A booking keeps its quantity out of the ticket quota while it is
        PENDING or CONFIRMED and gives it back once CANCELLED. */
    predicate Holds() {
      BookingPending? || Confirmed?
    }

    function Label(): string {
      match this
      case BookingPending => "PENDING"
      case Confirmed => "CONFIRMED"
      case Cancelled => "CANCELLED"
    }
  }

  datatype Booking = Booking(
    id: Uuid,
    userId: Uuid,
    eventId: Uuid,
    ticketId: Uuid,
    quantity: int,
    totalAmount: int,
    status: BookingStatus,
    expiredAt: Option<int>,
    createdAt: int)

  datatype PaymentStatus = Pending | Paid | Failed | Expired {
    function Label(): string {
      match this
      case Pending => "PENDING"
      case Paid => "PAID"
      case Failed => "FAILED"
      case Expired => "EXPIRED"
    }
  }

  datatype Payment = Payment(
    id: Uuid,
    bookingId: Uuid,
    userId: Uuid,
    amount: int,
    currency: string,
    paymentMethod: string,
    status: PaymentStatus,
    expiredAt: Option<int>,
    paidAt: Option<int>,
    createdAt: int,
    updatedAt: int)

  /** The payment-status allow-list, read from its wire label. */
  function ParsePaymentStatus(s: string): (r: Option<PaymentStatus>)
    ensures r.Some? <==> s in {"PENDING", "PAID", "FAILED", "EXPIRED"}
    ensures r.Some? ==> r.value.Label() == s
  {
    match s
    case "PENDING" => Some(Pending)
    case "PAID" => Some(Paid)
    case "FAILED" => Some(Failed)
    case "EXPIRED" => Some(Expired)
    case _ => None
  }

  /** Every status survives the trip to its wire label and back. */
  lemma ParseLabelRoundTrip(st: PaymentStatus)
    ensures ParsePaymentStatus(st.Label()) == Some(st)
  {
  }

  /** The hook run before a payment row is inserted: a nil identifier is
      replaced by the freshly generated one and an empty currency by "IDR". */
  function PaymentBeforeCreate(p: Payment, freshId: Uuid): (r: Payment)
    ensures p.id == NilUuid ==> r.id == freshId
    ensures p.id != NilUuid ==> r.id == p.id
    ensures p.currency == "" ==> r.currency == DefaultCurrency
    ensures p.currency != "" ==> r.currency == p.currency
    ensures r.(id := p.id, currency := p.currency) == p
  {
    var withId := if p.id == NilUuid then p.(id := freshId) else p;
    if withId.currency == "" then withId.(currency := DefaultCurrency) else withId
  }

  /** Running the hook on a row it has already prepared changes nothing. */
  lemma PaymentBeforeCreateIdempotent(p: Payment, freshId: Uuid, otherId: Uuid)
    requires freshId != NilUuid
    ensures PaymentBeforeCreate(PaymentBeforeCreate(p, freshId), otherId)
         == PaymentBeforeCreate(p, freshId)
  {
  }

  /** The hook run before a booking row is inserted: only the identifier. */
  function BookingBeforeCreate(b: Booking, freshId: Uuid): (r: Booking)
    ensures b.id == NilUuid ==> r.id == freshId
    ensures b.id != NilUuid ==> r == b
    ensures r.(id := b.id) == b
  {
    if b.id == NilUuid then b.(id := freshId) else b
  }
}
