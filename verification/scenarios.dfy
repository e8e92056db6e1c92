/** Worked runs of the booking service on small concrete tables. */
module Scenarios {
  import opened Wrappers
  import opened Records
  import opened BookingService

  /** One event (1) with one ticket category (2): price 75.00, quota 5. */
  function Seeded(): BookingDb
  {
    BookingDb({1}, map[2 := Ticket(2, 1, "VIP", 7500, 5)], map[])
  }

  /** Two requests for 3 of the 5 tickets: the first is served, the second
      finds only 2 left and is refused; the quota ends at 2. */
  lemma TwoRequestsForThreeOfFive()
    ensures var r1 := CreateBooking(Seeded(), 9, 1, 2, 3, 0, 10);
            && r1.Success?
            && CreateBooking(r1.value.0, 8, 1, 2, 3, 0, 11) == Failure(InsufficientQuota)
            && r1.value.0.tickets[2].quota == 2
  {
    var r1 := CreateBooking(Seeded(), 9, 1, 2, 3, 0, 10);
    assert r1.value.0.tickets[2].quota == 2;
  }

  /** Two tickets at 75.00 cost 150.00, held for 15 minutes. */
  lemma TwoAtSeventyFive(now: int)
    ensures var r := CreateBooking(Seeded(), 9, 1, 2, 2, now, 10);
            && r.Success?
            && r.value.1.totalAmount == 15000
            && r.value.1.status == BookingPending
            && r.value.1.expiredAt == Some(now + 900)
  {
  }

  /** Cancelling a PENDING booking of 4 on a ticket at quota 10 brings it to 14. */
  lemma CancelFourAtTen()
    ensures var db := BookingDb({1}, map[2 := Ticket(2, 1, "VIP", 7500, 10)],
                                map[10 := Booking(10, 9, 1, 2, 4, 30000, BookingPending, Some(900), 0)]);
            var r := UpdateBookingStatus(db, 10, "CANCELLED");
            && r.Success?
            && r.value.bookings[10].status == Cancelled
            && r.value.tickets[2].quota == 14
  {
  }
}
