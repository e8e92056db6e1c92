# Booking–payment saga: a Dafny model

This project models the part of the ticketing system where two services split one
business transaction between them: the booking service reserves tickets and the
payment service settles the payment.

- **Booking service.** `CreateBooking` takes tickets out of a ticket category's quota
  and records a PENDING booking that holds them for 15 minutes. `UpdateBookingStatus`
  moves a PENDING booking to CONFIRMED, which keeps the tickets, or to CANCELLED,
  which gives them back.
- **Payment service.** `CreatePayment` creates at most one PENDING payment per
  booking. The payment gateway's callback settles that payment and notifies the
  booking service. `payment.success` confirms the booking; `payment.failed` cancels it.
- **Admin endpoints.** An administrative endpoint overwrites a payment's status
  without any guard. A booking-expiry entry point expires a payment that is
  still pending.

Each record store is a map from identifiers to immutable records. Each service call
is a pure function that returns either the new state or an error kind. The source
runs each booking operation in one database transaction, so a failed call returns no
state and the caller keeps the one it had.

The two services are combined in `Saga.System`. Calls between the services are
parameters:
- the payment service's booking lookup can be unreachable;
- a notification can be dropped on the way there, or applied with its reply lost.

Over that combined state the model proves:
- the inventory invariant: for every ticket, the quota plus the quantities of its
  PENDING and CONFIRMED bookings never changes, and no quota goes below zero;
- at most one payment per booking;
- a booking leaves PENDING at most once.

Modules, one per source file or concern:

| file | module | models |
|---|---|---|
| `wrappers.dfy` | `Wrappers` | `Option`, `Result` |
| `records.dfy` | `Records` | ticket, booking and payment rows; the insert hooks; the payment-status labels |
| `ticket_repository.dfy` | `TicketRepository` | lookup and quota updates on the ticket table |
| `ledger.dfy` | `Ledger` | how much of a ticket the bookings hold, summed over the booking map |
| `booking_service.dfy` | `BookingService` | `CreateBooking`, `UpdateBookingStatus`, conservation |
| `payment_service.dfy` | `PaymentService` | `CreatePayment`, `UpdatePaymentStatus`, the gateway webhook, `HandleBookingExpired` |
| `booking_handler.dfy` | `BookingHandler` | request checks, the manual status allow-list, event → transition |
| `payment_handler.dfy` | `PaymentHandler` | request checks, the gateway allow-list, booking-event routing |
| `saga.dfy` | `Saga` | both services, the notification, invariants over any run |
| `scenarios.dfy` | `Scenarios` | small concrete runs |

Conventions:
- Identifiers are naturals, with 0 standing for the nil UUID. Their order stands
  for the primary-key order that the payment repository's `FindByBookingID` uses to
  pick its first match.
- Money is in integer minor units, so `total = price × quantity` is exact.
- Time is integer seconds, passed in as `now`.
- A request's identifier field is `RawId`: `Blank`, `Unparsable` or `Parsed(id)`.

## Model

| member | source | states |
|---|---|---|
| Records.ParsePaymentStatus | microservices-architecture/src/payment-service/internal/service/payment_service.go:147-150 | exactly PENDING, PAID, FAILED and EXPIRED are accepted, each read as the status whose label it is |
| Records.ParseLabelRoundTrip | microservices-architecture/src/payment-service/internal/model/payment.go:17 | every payment status survives the trip to its stored label and back |
| Records.PaymentBeforeCreate | microservices-architecture/src/payment-service/internal/model/payment.go:24-32 | a nil id is replaced by the fresh one and a non-nil id kept; an empty currency becomes IDR and a non-empty one is kept; no other field changes |
| Records.PaymentBeforeCreateIdempotent | microservices-architecture/src/payment-service/internal/model/payment.go:24-32 | running the hook again on a row it has prepared changes nothing |
| Records.BookingBeforeCreate | microservices-architecture/src/booking-service/internal/model/booking.go:24-29 | a nil booking id is replaced by the fresh one; a non-nil one leaves the row as it was |
| TicketRepository.FindByIdForUpdate | microservices-architecture/src/booking-service/internal/repository/ticket_repository.go:45-53 | fails exactly when the id is absent, otherwise returns that row |
| TicketRepository.ReduceQuota | microservices-architecture/src/booking-service/internal/repository/ticket_repository.go:76-79 | the named ticket's quota drops by q; price, event, category and every other row stay; an absent id changes nothing |
| TicketRepository.IncreaseQuota | microservices-architecture/src/booking-service/internal/repository/ticket_repository.go:81-84 | the named ticket's quota rises by q; nothing else changes |
| TicketRepository.ReduceThenIncrease | microservices-architecture/src/booking-service/internal/repository/ticket_repository.go:76-84 | reducing then increasing by the same q restores the table exactly |
| TicketRepository.ReduceQuotaHasNoFloor | microservices-architecture/src/booking-service/internal/repository/ticket_repository.go:76-79 | the update checks no bound: reducing a quota of 1 by 2 stores -1 |
| BookingService.CreateBooking | microservices-architecture/src/booking-service/internal/service/booking_service.go:51-107 | the failures, each as an if-and-only-if and in the source's order: quantity ≤ 0, event missing, ticket missing, ticket of another event, quota < quantity, insert collision; on success a PENDING booking with total = price × quantity, expiry now + 15 min and the caller's user/event/ticket/quantity, and that ticket's quota down by exactly quantity and still ≥ 0, all else unchanged |
| BookingService.UpdateBookingStatus | microservices-architecture/src/booking-service/internal/service/booking_service.go:168-205 | a missing booking and a non-PENDING booking fail; on PENDING, CONFIRMED changes only the status; CANCELLED fails if the ticket is gone, otherwise it changes the status and gives the quantity back to that ticket only; any other target fails with invalid status |
| BookingService.CreateBookingConserves | microservices-architecture/src/booking-service/internal/service/booking_service.go:77-100 | a successful booking keeps every ticket's quota plus held quantity and keeps quotas non-negative |
| BookingService.UpdateBookingStatusConserves | microservices-architecture/src/booking-service/internal/service/booking_service.go:182-198 | confirming or cancelling keeps every ticket's quota plus held quantity and keeps quotas non-negative |
| BookingService.TransitionAtMostOnce | microservices-architecture/src/booking-service/internal/service/booking_service.go:173-180 | after one successful transition every further transition of that booking fails with not-pending |
| BookingService.CancelReleasesExactlyOnce | microservices-architecture/src/booking-service/internal/service/booking_service.go:187-198 | cancelling adds the quantity back once; a second cancel or a late confirm is refused |
| BookingHandler.CreateBooking | microservices-architecture/src/booking-service/internal/handler/booking_handler.go:40-94 | a missing Authorization header and a refused authentication are the only 401s; empty event/ticket ids or quantity ≤ 0 are refused, then a malformed event, ticket or user id, in that order; the request succeeds exactly when all ids parse and the service succeeds, with the service's result |
| BookingHandler.UpdateBookingStatus | microservices-architecture/src/booking-service/internal/handler/booking_handler.go:138-177 | a malformed id, an empty status and a status outside PENDING/PAID/CONFIRMED/CANCELLED are refused before the service; anything else is the service's answer |
| BookingHandler.TargetFor | microservices-architecture/src/booking-service/internal/handler/booking_handler.go:205-222 | payment.success means CONFIRMED, payment.failed and payment.expired mean CANCELLED, any other event means nothing |
| BookingHandler.HandlePaymentWebhook | microservices-architecture/src/booking-service/internal/handler/booking_handler.go:184-222 | an empty booking id or event is refused first, then a malformed id, then an unknown event, without calling the service; a known event dispatches its transition |
| BookingHandler.ManualPendingOrPaidNeverApplies | microservices-architecture/src/booking-service/internal/handler/booking_handler.go:154-177 | PENDING and PAID pass the allow-list but always fail, with invalid status when the booking is pending |
| BookingHandler.DuplicateNotificationRefused | microservices-architecture/src/booking-service/internal/handler/booking_handler.go:205-217 | a payment notification applied once is refused with not-pending when it arrives again |
| PaymentService.FirstKeyFor | microservices-architecture/src/payment-service/internal/repository/payment_repository.go:40-47 | finds a payment exactly when one references the booking, and then the one with the least id |
| PaymentService.CreatePayment | microservices-architecture/src/payment-service/internal/service/payment_service.go:43-77 | amount ≤ 0, a method outside VA/EWALLET/QRIS, a failed booking lookup, an existing payment for the booking, a booking without expiry and an insert collision fail, each exactly in its case and in that order; on success the single new row is PENDING in IDR with the caller's amount and method and the booking's user and expiry; a request passing every check succeeds |
| PaymentService.UpdatePaymentStatus | microservices-architecture/src/payment-service/internal/service/payment_service.go:141-161 | a missing payment fails first, then a status outside the four; an existing payment with one of the four statuses always succeeds, whatever its current status, is overwritten, paid-at is stamped on PAID only if unset, and nothing else changes |
| PaymentService.EventFor | microservices-architecture/src/payment-service/internal/service/payment_service.go:176-188 | PAID is reported as payment.success, FAILED and EXPIRED as payment.failed, PENDING not at all |
| PaymentService.GatewayNotice | microservices-architecture/src/payment-service/internal/service/payment_service.go:163-188 | a notice is sent exactly for a PENDING payment and a non-PENDING status, naming that payment and its booking |
| PaymentService.HandlePaymentGatewayWebhook | microservices-architecture/src/payment-service/internal/service/payment_service.go:163-191 | a missing or non-PENDING payment fails with no notice; a failed notice fails with the row unsaved; a failed save after an accepted or absent notice fails with SaveFailed; it succeeds exactly for a PENDING payment whose notice, if any, was accepted and whose save went through; on success only that row changes: the new status, paid-at on PAID |
| PaymentService.HandleBookingExpired | microservices-architecture/src/payment-service/internal/service/payment_service.go:193-209 | no payment or a settled payment leaves the table as it was; a PENDING one becomes EXPIRED, and no other row changes |
| PaymentService.CreatePaymentKeepsOnePerBooking | microservices-architecture/src/payment-service/internal/service/payment_service.go:58-61 | sequential creations never give a booking a second payment |
| PaymentService.SecondPaymentRefused | microservices-architecture/src/payment-service/internal/service/payment_service.go:58-61 | once a booking has a payment, a second valid request fails with already-exists |
| PaymentService.CreatePaymentIgnoresTotalAndStatus | microservices-architecture/src/payment-service/internal/service/payment_service.go:53-73 | the amount is not compared with the booking total and the booking status is not checked: a cancelled booking of total 150 gets a payment of 1 |
| PaymentService.OverwriteReopensSettledPayment | microservices-architecture/src/payment-service/internal/service/payment_service.go:152-158 | the overwrite has no PENDING guard: a PAID payment can be put back to PENDING and keeps its paid-at |
| PaymentService.GatewayTransitionAtMostOnce | microservices-architecture/src/payment-service/internal/service/payment_service.go:169-171 | after a successful gateway transition a repeated callback fails with not-pending |
| PaymentService.FailedNoticeKeepsPaymentPending | microservices-architecture/src/payment-service/internal/service/payment_service.go:181-190 | when the notification fails the call fails and the payment stays PENDING |
| PaymentService.HandleBookingExpiredIdempotent | microservices-architecture/src/payment-service/internal/service/payment_service.go:193-209 | expiring a booking's payment twice has the effect of expiring it once |
| PaymentHandler.CreatePayment | microservices-architecture/src/payment-service/internal/handler/payment_handler.go:47-74 | an empty booking id, amount ≤ 0 or an empty method is refused, then a malformed id; anything else is the service's answer for the booking it fetched |
| PaymentHandler.UpdatePaymentStatus | microservices-architecture/src/payment-service/internal/handler/payment_handler.go:118-143 | a malformed id and an empty status are refused; anything else is the service's answer |
| PaymentHandler.CheckGatewayRequest | microservices-architecture/src/payment-service/internal/handler/payment_handler.go:159-177 | the id is parsed before the emptiness check; then an empty status and a status outside PENDING/PAID/FAILED/EXPIRED are refused; only the four statuses reach the service |
| PaymentHandler.HandlePaymentGatewayWebhook | microservices-architecture/src/payment-service/internal/handler/payment_handler.go:151-188 | a refused request never reaches the service; an accepted one is the service's answer |
| PaymentHandler.HandleBookingWebhook | microservices-architecture/src/payment-service/internal/handler/payment_handler.go:190-228 | an empty id or event, a malformed id and an unknown event are refused; booking.expired and booking.cancelled expire the booking's payment |
| PaymentHandler.ExpiredAndCancelledAgree | microservices-architecture/src/payment-service/internal/handler/payment_handler.go:213-219 | booking.expired and booking.cancelled have the same effect |
| PaymentHandler.EmptyGatewayIdIsMalformed | microservices-architecture/src/payment-service/internal/handler/payment_handler.go:159-170 | an empty payment id fails as a malformed id, whatever the status |
| Saga.Deliver | microservices-architecture/src/payment-service/internal/client/webhook_client.go:35-65 | a dropped request or an event the booking webhook does not know changes nothing and reports failure; otherwise the booking transition the event names is applied, and the sender sees success only when it was applied and the reply arrived, in which case the booking has just left PENDING |
| Saga.Gateway | microservices-architecture/src/payment-service/internal/service/payment_service.go:163-191 | a refused request changes nothing; the caller sees success exactly when the payment was PENDING, any notice was delivered and accepted by the booking service, and the save went through; the payments change only then and only at that id; the bookings and tickets change exactly by the booking transition of the notice that reached the booking service, even when the callback then fails |
| Saga.NextPreserves | microservices-architecture/src/booking-service/internal/service/booking_service.go:64-205 | every request of either service keeps quotas non-negative, one payment per booking, and each ticket's quota plus held quantity |
| Saga.RunPreserves | microservices-architecture/src/booking-service/internal/service/booking_service.go:64-205 | the same holds after any sequence of requests |
| Saga.SettledBookingStays | microservices-architecture/src/booking-service/internal/service/booking_service.go:178-180 | a booking that has left PENDING keeps its status through every request |
| Saga.SettledPaymentStays | microservices-architecture/src/payment-service/internal/service/payment_service.go:169-171 | a settled payment keeps its status through every request except the administrative overwrite |
| Saga.PaidCallbackSettlesBoth | microservices-architecture/src/payment-service/internal/service/payment_service.go:176-183 | a PAID callback that is delivered and saved makes the payment PAID with paid-at now and the booking CONFIRMED, with no quota change |
| Saga.FailedCallbackReleasesTickets | microservices-architecture/src/payment-service/internal/service/payment_service.go:184-187 | a FAILED or EXPIRED callback that gets through cancels the booking and returns its quantity |
| Saga.UnconfirmedNoticeKeepsPayment | microservices-architecture/src/payment-service/internal/service/payment_service.go:181-190 | a dropped notice, or one whose reply is lost, fails the callback and leaves the payments untouched |
| Saga.LostSaveStrandsPayment | microservices-architecture/src/payment-service/internal/service/payment_service.go:181-190 | a failed save after a delivered PAID notice leaves the booking CONFIRMED and the payment PENDING, and every retry of the callback then fails |
| Scenarios.TwoRequestsForThreeOfFive | microservices-architecture/src/booking-service/internal/service/booking_service.go:77-100 | quota 5 and two requests for 3: the first succeeds, the second fails for quota, and 2 remain |
| Scenarios.TwoAtSeventyFive | microservices-architecture/src/booking-service/internal/service/booking_service.go:81-92 | two tickets at 75.00 make a PENDING booking of 150.00 expiring 900 s after creation |
| Scenarios.CancelFourAtTen | microservices-architecture/src/booking-service/internal/service/booking_service.go:187-198 | cancelling a booking of 4 on a ticket at quota 10 leaves quota 14 |

## Left out

- HTTP routing, JSON body parsing and response wrapping are not modelled. A body
  that fails to parse is not modelled either. Outcomes are `Success` or
  `Failure(kind)`; the only status codes kept are 401 and 400 (`BookingHandler.StatusCode`).
- UUID parsing is not modelled: a request's identifier is `Blank`, `Unparsable` or `Parsed`.
- The identity service is an oracle: for the Authorization header it returns either
  a raw user id or a refusal. JWT, bcrypt and refresh tokens are not modelled.
- HTTP clients are parameters:
  - the booking lookup returns a snapshot or fails;
  - the notification is dropped, delivered, or delivered with its reply lost.
- Row locks and transactions are not modelled. Each service call is one atomic
  step, and the requests of a run are served one after another. This also covers
  the race left by `CreatePayment`'s unlocked existence check (two concurrent
  creations for one booking), which the model does not represent.
- Database write failures are modelled only in two places:
  - the gateway webhook's save, because it comes after the notification;
  - inserts whose id is already taken.
  Elsewhere a failed write is an error with no change, which atomicity already covers.
- Prices and amounts are integer minor units, not `float64`. Go's 64-bit `int`
  overflow is not modelled either: quotas, quantities and totals are unbounded.
- `time.Now()` is the parameter `now`. `CreatedAt` and `UpdatedAt` take it where
  the ORM would stamp the current time.
- PaymentService.HandlePaymentGatewayWebhook: takes a status already parsed into one
  of the four values. The Go service would store any string, but its only caller,
  the gateway handler, lets only those four through (`PaymentHandler.CheckGatewayRequest`).
- PaymentService.CreatePayment: a booking snapshot without an expiry is a nil
  dereference, a runtime panic, in the source. Here it is the `MissingExpiry`
  failure with nothing written. Bookings created by `CreateBooking` always carry an expiry.
- The booking-expiry webhook on the payment side (`PaymentHandler.HandleBookingWebhook`,
  `PaymentService.HandleBookingExpired`) is modelled, but it is not a `Saga.Request`:
  its route is commented out in `payment-service/cmd/main.go` at line 53. Nothing sends
  it, because the booking service's `NotifyPaymentService` is never called.
- Get/GetAll record-to-response copying, ticket and event CRUD, the seeder,
  migrations, `main.go` wiring and the frontend are not modelled.

## Notes on the source

- The gateway webhook notifies the booking service before it saves the payment.
  Two consequences follow:
  - a failed notification leaves the payment PENDING (`Saga.UnconfirmedNoticeKeepsPayment`);
  - a failed save after a delivered notice leaves the booking settled and the payment
    PENDING, and every retry of that callback is then refused
    (`Saga.LostSaveStrandsPayment`).
- The gateway reports EXPIRED as `payment.failed`. The booking webhook also accepts
  `payment.expired`, but the payment service never sends it.
