# Airline reservation saga in Dafny

This project models the core of a small airline booking system written in Kotlin and Java. It covers four services.

- **Reservation service.** A synchronous saga that validates the flight, reserves one seat, takes the payment and issues the ticket. On failure it compensates by cancelling the ticket, cancelling the payment and releasing the seats, then records the reservation as FAILED. Only a CONFIRMED reservation can be cancelled.
- **Flight service.** A seat inventory bounded by the total number of seats, and a flight aggregate with an event log.
- **Payment service.** A payment aggregate (PENDING → SUCCESS/FAILED, SUCCESS → CANCELLED) with its value objects and application service.
- **Ticket service.** A ticket aggregate (PENDING → ISSUED → CANCELLED, with a change of seat while ISSUED), the seat-number value object, the status mapper and the ticket application service.

The model takes the source's own form.

- Immutable values become datatypes with functions: the reservation aggregate, SeatInventory, the value objects, `Result` and the mappers.
- Objects updated in place become classes with `modifies` clauses: FlightAggregate, PaymentAggregate, TicketAggregate, the three application services, the repository and the event store.

The Feign clients and the Kafka template of the reservation service are given as an `Adapters` record. It holds one outcome (a returned value or a thrown exception) per remote call. The saga is a pure function from the request and the adapter outcomes to a `Run`: the result, the trace of remote calls made, and the reservations saved. The `ReservationService` class performs those saves on its repository and is proved to match that function.

Three behaviours of the saga as written follow from these definitions and are stated by lemmas:

- Recovery compensates from the reservation as first created, which holds no payment or ticket id. A failure after the payment (a failed ticket issue or publish) therefore releases the seat but cancels neither the payment nor the ticket (ReservationSagaProperties.StepFailureCompensates, ReservationSagaProperties.PublishFailureLeavesFailedEntity).
- A failed flight lookup or availability check still releases one seat, which was never reserved (ReservationSagaProperties.StepFailureCompensates).
- mapFailure returns its input unchanged, so every chain failure is SystemError "Unexpected error: …"; FlightNotFound, NoAvailableSeats, PaymentDeclined and TicketIssuanceFailed are never produced (ReservationSagaProperties.ChainFailuresAreUnexpected).

Other inputs are parameters:

- clocks (`now`);
- UUIDs (`newId`, `uuid`, `newPaymentId`);
- the random seat draw (`row`, `column`);
- the simulated external payment system (`external`).

Java `int` is a 32-bit `int32` subset type with wrap-around written out (`Exceptions.AddInt32`). `BigDecimal` is an unscaled integer with a scale (`Money.Decimal`). Kotlin's `isBlank`/`trim` (Unicode whitespace) and Java's `trim` (characters up to U+0020) are kept apart (`Text.Trim`, `Text.JavaTrim`).

Files:

- `optional.dfy`, `exceptions.dfy`, `messaging.dfy`, `text.dfy`, `money.dfy`, `identifiers.dfy`: support types.
- `result.dfy`: `Result` and `DomainError`.
- `seat_inventory.dfy`, `flight_aggregate.dfy`, `flight_service.dfy`: flight.
- `payment_amount.dfy`, `payment_method.dfy`, `payment_aggregate.dfy`, `payment_service.dfy`: payment.
- `seat_number.dfy`, `ticket_aggregate.dfy`, `ticket_mapper.dfy`, `ticket_service.dfy`: ticket.
- `reservation_aggregate.dfy`, `reservation_repository.dfy`, `domain_events.dfy`, `reservation_saga.dfy`: reservation.

## Model

| member | source | states |
|---|---|---|
| Exceptions.AddInt32 | flight/src/main/java/com/airline/flight/domain/valueobject/SeatInventory.java:51 | Java `int` addition: the exact sum when it fits in 32 bits, otherwise the sum wrapped by 2^32 |
| Optional.OrElse | ticket/src/main/kotlin/com/airline/ticket/service/TicketService.kt:108-110 | Kotlin's `?:`: the value when present, the default otherwise |
| Text.BlankIffAllWhitespace | ticket/src/main/kotlin/com/airline/ticket/domain/valueobject/SeatNumber.kt:12 | `isBlank` holds exactly when every character is whitespace |
| Text.BlankIffTrimEmpty | ticket/src/main/kotlin/com/airline/ticket/domain/valueobject/SeatNumber.kt:12-16 | a string is blank exactly when trimming it leaves nothing |
| Text.TrimIdempotent | payment/src/main/kotlin/com/airline/payment/domain/valueobject/PaymentMethod.kt:16 | `trim()` applied twice is `trim()` applied once |
| Text.TrimIsTrimmed | payment/src/main/kotlin/com/airline/payment/domain/valueobject/PaymentMethod.kt:16 | `trim()`'s result has no whitespace at either end and is blank exactly when its input is |
| Text.NatToStringRoundTrip | ticket/src/main/kotlin/com/airline/ticket/service/TicketService.kt:155-160 | the decimal text of a row number reads back as that number and has at most k digits when the number is below 10^k |
| Text.EmailNormalForm | payment/src/main/kotlin/com/airline/payment/domain/valueobject/CustomerInfo.kt:12-27 | an address matching the email pattern is unchanged by trim, and its lower-case form still matches and has no upper-case letter |
| Identifiers.IdOf | ticket/src/main/kotlin/com/airline/ticket/domain/valueobject/TicketId.kt:9-15 | an id value object accepts exactly the non-blank strings, stores them trimmed and otherwise throws the given message |
| Identifiers.IdOfIdempotent | ticket/src/main/kotlin/com/airline/ticket/domain/valueobject/TicketId.kt:9-15 | the stored id is in normal form, and a normal id is accepted unchanged |
| Money.LessEqTotal | payment/src/main/kotlin/com/airline/payment/domain/valueobject/PaymentAmount.kt:27-37 | `BigDecimal.compareTo` across scales is total |
| Money.LessEqTransitive | payment/src/main/kotlin/com/airline/payment/domain/valueobject/PaymentAmount.kt:27-37 | `BigDecimal.compareTo` across scales is transitive |
| Money.LessEqZero | payment/src/main/kotlin/com/airline/payment/domain/valueobject/PaymentAmount.kt:12 | a decimal is at most zero exactly when its unscaled value is, whatever its scale |
| Money.WholeLessEq | payment/src/main/kotlin/com/airline/payment/domain/valueobject/PaymentAmount.kt:27-37 | whole-number decimals compare as their integers |
| DomainResult.ToException | reservation/src/main/kotlin/com/airline/reservation/common/Result.kt:94-101 | ValidationError becomes an IllegalArgumentException and every other error a RuntimeException, carrying the error's message and cause |
| DomainResult.GetOrNull | reservation/src/main/kotlin/com/airline/reservation/common/Result.kt:16-19 | the data of a Success, null for a Failure |
| DomainResult.GetOrThrow | reservation/src/main/kotlin/com/airline/reservation/common/Result.kt:21-24 | the data of a Success; a Failure throws the error's `toException()` |
| DomainResult.Map | reservation/src/main/kotlin/com/airline/reservation/common/Result.kt:26-29 | a Success(d) becomes Success(f(d)); a Failure is kept with the same error |
| DomainResult.FlatMap | reservation/src/main/kotlin/com/airline/reservation/common/Result.kt:31-34 | a Success(d) becomes g(d); a Failure is kept with the same error |
| DomainResult.RunCatching | reservation/src/main/kotlin/com/airline/reservation/common/Result.kt:50-54 | a returning block gives Success of its value; a thrown exception gives Failure(SystemError "Unexpected error: …" with the exception as cause), and nothing escapes |
| DomainResult.UnexpectedError | reservation/src/main/kotlin/com/airline/reservation/common/Result.kt:50-54 | the error runCatching builds is a SystemError whose message starts "Unexpected error: " and whose cause is the exception |
| DomainResult.FlightNotFoundOf | reservation/src/main/kotlin/com/airline/reservation/common/Result.kt:65-68 | FlightNotFound carries the flight id |
| DomainResult.NoAvailableSeatsOf | reservation/src/main/kotlin/com/airline/reservation/common/Result.kt:70-73 | NoAvailableSeats carries the flight id |
| DomainResult.MapIdentity | reservation/src/main/kotlin/com/airline/reservation/common/Result.kt:26-29 | map with the identity changes nothing |
| DomainResult.MapCompose | reservation/src/main/kotlin/com/airline/reservation/common/Result.kt:26-29 | map(f) then map(g) is map(g ∘ f) |
| DomainResult.MapIsFlatMap | reservation/src/main/kotlin/com/airline/reservation/common/Result.kt:26-34 | map(f) is flatMap of Success ∘ f |
| DomainResult.FlatMapAssociative | reservation/src/main/kotlin/com/airline/reservation/common/Result.kt:31-34 | flatMap is associative (the monad law the saga's chain relies on) |
| DomainResult.FlatMapUnit | reservation/src/main/kotlin/com/airline/reservation/common/Result.kt:31-34 | Success is a left and right unit of flatMap |
| DomainResult.RunCatchingGetOrThrow | reservation/src/main/kotlin/com/airline/reservation/common/Result.kt:21-54 | runCatching { getOrThrow() } keeps a Success and turns a Failure into SystemError "Unexpected error: <message>" |
| DomainResult.GetOrNullAgrees | reservation/src/main/kotlin/com/airline/reservation/common/Result.kt:16-24 | getOrNull and getOrThrow agree on which results carry data and on the data |
| SeatInventories.Create | flight/src/main/java/com/airline/flight/domain/valueobject/SeatInventory.java:13-18 | create(t) succeeds exactly when t > 0, giving available == total == t |
| SeatInventories.Reconstruct | flight/src/main/java/com/airline/flight/domain/valueobject/SeatInventory.java:20-31 | reconstruct succeeds exactly when total > 0 and 0 ≤ available ≤ total, with each violation's own error in the order checked |
| SeatInventories.Reserve | flight/src/main/java/com/airline/flight/domain/valueobject/SeatInventory.java:33-44 | reserve(n) succeeds exactly when canReserve(n) (n > 0 and available ≥ n); it lowers available by n, keeps the total, and otherwise throws with n and the current availability |
| SeatInventories.Release | flight/src/main/java/com/airline/flight/domain/valueobject/SeatInventory.java:46-60 | release(n), with the sum compared without overflow, succeeds exactly when n > 0 and available + n ≤ total, and raises available by n; otherwise it throws the matching error |
| SeatInventories.ReleaseAsWritten | flight/src/main/java/com/airline/flight/domain/valueobject/SeatInventory.java:46-60 | release(n) as written: the bound check and the new count use the 32-bit wrapped sum |
| SeatInventories.ReleaseAgreesWithoutOverflow | flight/src/main/java/com/airline/flight/domain/valueobject/SeatInventory.java:46-60 | as written and corrected agree whenever available + n fits in an `int` |
| SeatInventories.ReleaseAsWrittenOverflows | flight/src/main/java/com/airline/flight/domain/valueobject/SeatInventory.java:51 | releasing 2147483647 seats of an inventory (100, 10) is accepted as written and leaves available = -2147483639; the corrected release refuses it |
| SeatInventories.ReserveKeepsValid | flight/src/main/java/com/airline/flight/domain/valueobject/SeatInventory.java:37-44 | a successful reserve keeps 0 ≤ available ≤ total |
| SeatInventories.ReleaseKeepsValid | flight/src/main/java/com/airline/flight/domain/valueobject/SeatInventory.java:46-60 | a successful release keeps 0 ≤ available ≤ total |
| SeatInventories.ReserveThenRelease | flight/src/main/java/com/airline/flight/domain/valueobject/SeatInventory.java:37-60 | reserve(n) then release(n) restores the original inventory |
| SeatInventories.ReleaseThenReserve | flight/src/main/java/com/airline/flight/domain/valueobject/SeatInventory.java:37-60 | release(n) then reserve(n) restores the original inventory |
| Flights.FlightAggregate.constructor | flight/src/main/java/com/airline/flight/domain/model/FlightAggregate.java:75-104 | reconstruct: the aggregate holds the given id, price, inventory and update time (possibly none) and no pending events |
| Flights.FlightAggregate.IsAvailable | flight/src/main/java/com/airline/flight/domain/model/FlightAggregate.java:168-170 | no count of zero or less is available; for an int count, available exactly when reserving it from the inventory succeeds |
| Flights.FlightAggregate.ReserveSeats | flight/src/main/java/com/airline/flight/domain/model/FlightAggregate.java:109-128 | n ≤ 0 throws InvalidFlightOperation; too few seats throws InsufficientSeats with n and the availability; in both cases nothing changes; success happens exactly when isAvailable(n), replaces the inventory by reserve(n), stamps the time and appends exactly one SeatsReserved carrying the new availability |
| Flights.FlightAggregate.ReleaseSeats | flight/src/main/java/com/airline/flight/domain/model/FlightAggregate.java:133-145 | n ≤ 0 throws InvalidFlightOperation; exceeding the total throws the inventory's error; nothing changes on failure; success replaces the inventory by release(n) and appends exactly one SeatsReleased with the new availability |
| Flights.FlightAggregate.ChangePrice | flight/src/main/java/com/airline/flight/domain/model/FlightAggregate.java:150-163 | a null or non-positive price throws and changes nothing; otherwise the price is replaced, the time stamped and PriceChanged(old, new) appended; the inventory never changes |
| Flights.FlightAggregate.PullDomainEvents | flight/src/main/java/com/airline/flight/domain/model/FlightAggregate.java:189-193 | returns the pending events in order and leaves the log empty |
| Flights.ReserveThenReleaseRestores | flight/src/main/java/com/airline/flight/domain/model/FlightAggregate.java:109-145 | reserving then releasing n seats restores the inventory and logs SeatsReserved then SeatsReleased |
| FlightApplication.ValidateFlightId | flight/src/main/java/com/airline/flight/service/FlightService.java:171-175 | a null or blank flight id is refused with "Flight ID cannot be null or empty" and only then |
| FlightApplication.ValidateSeatCount | flight/src/main/java/com/airline/flight/service/FlightService.java:199-203 | a null or non-positive seat count is refused and only then |
| FlightApplication.ValidateSeatRequest | flight/src/main/java/com/airline/flight/service/FlightService.java:189-197 | reserve/release parameters pass exactly when the id is non-blank and seats > 0; the id is checked first |
| FlightApplication.ValidateAvailabilityRequest | flight/src/main/java/com/airline/flight/service/FlightService.java:177-187 | a null request, a blank id or requestedSeats ≤ 0 are refused with their own messages, in that order, and only those |
| FlightApplication.ReserveFailure | flight/src/main/java/com/airline/flight/service/FlightService.java:119-126 | a domain InsufficientSeats is rethrown as the application InsufficientSeats with the flight id, seats and availability; InvalidFlightOperation becomes InvalidRequest with the same message; nothing else is caught |
| FlightApplication.ReleaseFailure | flight/src/main/java/com/airline/flight/service/FlightService.java:153-156 | InvalidFlightOperation becomes InvalidRequest with its message; anything else propagates |
| FlightApplication.ReserveSeatsOutcome | flight/src/main/java/com/airline/flight/service/FlightService.java:99-127 | validation errors come before any lookup; an unknown flight throws FlightNotFound; success happens exactly when canReserve holds and the saved record differs from the stored one only by availability (lower by n) |
| FlightApplication.ReleaseSeatsOutcome | flight/src/main/java/com/airline/flight/service/FlightService.java:133-157 | validation before lookup; an unknown flight throws FlightNotFound; success exactly when available + n ≤ total, raising availability by n; the saved record differs from the stored one only there |
| FlightApplication.ServiceReserveThenRelease | flight/src/main/java/com/airline/flight/service/FlightService.java:99-157 | a successful reserveSeats followed by releaseSeats of the same count succeeds and restores every flight's inventory |
| FlightApplication.FlightService.constructor | flight/src/main/java/com/airline/flight/service/FlightService.java:74-157 | the service starts on the given flight records |
| FlightApplication.FlightService.Load | flight/src/main/java/com/airline/flight/service/FlightService.java:104-105 | the repository lookup rebuilds a fresh aggregate from the stored record with no pending events and no update time, as the mapper passes null |
| FlightApplication.FlightService.Save | flight/src/main/java/com/airline/flight/service/FlightService.java:115 | saving replaces the flight's record by the aggregate's id, price and inventory, and nothing else; the update time is not stored |
| FlightApplication.FlightService.CheckAvailability | flight/src/main/java/com/airline/flight/service/FlightService.java:74-93 | invalid requests are refused first; an unknown flight throws FlightNotFound; otherwise available == isAvailable(n), with the current availability and the matching message |
| FlightApplication.FlightService.ReserveSeats | flight/src/main/java/com/airline/flight/service/FlightService.java:99-127 | the result and the new store are those of ReserveSeatsOutcome; on failure the store is unchanged |
| FlightApplication.FlightService.ReleaseSeats | flight/src/main/java/com/airline/flight/service/FlightService.java:133-157 | the result and the new store are those of ReleaseSeatsOutcome; on failure the store is unchanged |
| PaymentAmounts.Of | payment/src/main/kotlin/com/airline/payment/domain/valueobject/PaymentAmount.kt:11-21 | of(v) accepts exactly v > 0 with scale ≤ 2; v ≤ 0 and then scale > 2 are refused with their own messages |
| PaymentAmounts.Tiers | payment/src/main/kotlin/com/airline/payment/domain/valueobject/PaymentAmount.kt:27-37 | isLowAmount is exactly the negation of isMediumAmount, and high implies medium |
| PaymentAmounts.HighAmountThreshold | payment/src/main/kotlin/com/airline/payment/domain/valueobject/PaymentAmount.kt:27 | isHighAmount means v ≥ 1,000,000, stated in unscaled units for every scale, negative scales (such as 1E+6) included |
| PaymentAmounts.MediumAmountThreshold | payment/src/main/kotlin/com/airline/payment/domain/valueobject/PaymentAmount.kt:32 | isMediumAmount means v ≥ 500,000, stated in unscaled units for every scale, negative scales included |
| PaymentMethods.Of | payment/src/main/kotlin/com/airline/payment/domain/valueobject/PaymentMethod.kt:9-22 | a blank method is refused; otherwise trim().uppercase() must be CARD, BANK_TRANSFER, DIGITAL_WALLET or CASH, and that normal form is stored; other names are refused quoting the input |
| PaymentMethods.ValidMethodNormal | payment/src/main/kotlin/com/airline/payment/domain/valueobject/PaymentMethod.kt:9-16 | the four method names are their own normal form |
| PaymentMethods.OfIdempotent | payment/src/main/kotlin/com/airline/payment/domain/valueobject/PaymentMethod.kt:11-22 | of(of(m).method) == of(m) |
| PaymentMethods.ExactlyOneKind | payment/src/main/kotlin/com/airline/payment/domain/valueobject/PaymentMethod.kt:28-43 | exactly one of isCard, isBankTransfer, isDigitalWallet and isCash holds for an accepted method |
| PaymentMethods.LowerCaseCardAccepted | payment/src/main/kotlin/com/airline/payment/domain/valueobject/PaymentMethod.kt:11-22 | " card " is accepted as CARD |
| Payments.Transition | payment/src/main/kotlin/com/airline/payment/domain/model/PaymentAggregate.kt:90-141 | approve and reject are allowed only from PENDING (giving SUCCESS and FAILED), cancel only from SUCCESS (giving CANCELLED) |
| Payments.NeverPendingAgain | payment/src/main/kotlin/com/airline/payment/domain/model/PaymentAggregate.kt:90-141 | no sequence of operations leads back to PENDING |
| Payments.FailedAndCancelledAreTerminal | payment/src/main/kotlin/com/airline/payment/domain/model/PaymentAggregate.kt:90-141 | FAILED and CANCELLED accept no further operation |
| Payments.CancelledOnlyAfterApproval | payment/src/main/kotlin/com/airline/payment/domain/model/PaymentAggregate.kt:90-141 | a payment reaches CANCELLED only through an approve |
| Payments.FinalStatusesRefuseDecisions | payment/src/main/kotlin/com/airline/payment/domain/model/PaymentAggregate.kt:90-141 | from a final status approve and reject are refused; cancel is allowed only from SUCCESS |
| Payments.CustomerInfoOf | payment/src/main/kotlin/com/airline/payment/domain/valueobject/CustomerInfo.kt:14-28 | a blank name, a blank email and a malformed email are refused in that order; the result stores the trimmed name and the trimmed, lower-cased email |
| Payments.CreateProblem | payment/src/main/kotlin/com/airline/payment/domain/model/PaymentAggregate.kt:32-57 | create's validation succeeds exactly when every value object accepts its input, and the blank payment id is checked before the blank reservation id |
| Payments.RejectedMessage | payment/src/main/kotlin/com/airline/payment/domain/model/PaymentAggregate.kt:109-123 | the rejection message ends with the reason |
| Payments.PaymentAggregate.constructor | payment/src/main/kotlin/com/airline/payment/domain/model/PaymentAggregate.kt:62-85 | reconstruct: the aggregate holds exactly the given fields |
| Payments.PaymentAggregate.Create | payment/src/main/kotlin/com/airline/payment/domain/model/PaymentAggregate.kt:32-57 | create throws exactly the first validation error; otherwise a fresh PENDING aggregate with the normalised values and one PaymentCreated event |
| Payments.PaymentAggregate.Approve | payment/src/main/kotlin/com/airline/payment/domain/model/PaymentAggregate.kt:90-104 | allowed exactly from PENDING, giving SUCCESS, the approval message, the time and one PaymentApproved event; otherwise PaymentAlreadyProcessed and nothing changes |
| Payments.PaymentAggregate.Reject | payment/src/main/kotlin/com/airline/payment/domain/model/PaymentAggregate.kt:109-123 | allowed exactly from PENDING, giving FAILED, a message ending with the reason and one PaymentRejected event; otherwise PaymentAlreadyProcessed and nothing changes |
| Payments.PaymentAggregate.Cancel | payment/src/main/kotlin/com/airline/payment/domain/model/PaymentAggregate.kt:128-141 | allowed exactly from SUCCESS, giving CANCELLED and one PaymentCancelled event; otherwise InvalidPaymentOperation naming the status, and nothing changes |
| Payments.PaymentAggregate.ClearDomainEvents | payment/src/main/kotlin/com/airline/payment/domain/model/PaymentAggregate.kt:178-180 | the event log is emptied |
| Payments.PaymentAggregate.CanBeCancelled | payment/src/main/kotlin/com/airline/payment/domain/model/PaymentAggregate.kt:146 | exactly when cancel is accepted from the status |
| Payments.PaymentAggregate.IsSuccessful | payment/src/main/kotlin/com/airline/payment/domain/model/PaymentAggregate.kt:151 | a final status from which cancel is still accepted |
| Payments.PaymentAggregate.IsFailed | payment/src/main/kotlin/com/airline/payment/domain/model/PaymentAggregate.kt:156 | the one status other than CANCELLED from which approve and cancel are both refused; then every command is refused |
| Payments.PaymentAggregate.IsPending | payment/src/main/kotlin/com/airline/payment/domain/model/PaymentAggregate.kt:161 | exactly the non-final status, and exactly when approve is accepted |
| Payments.GuardsAgree | payment/src/main/kotlin/com/airline/payment/domain/model/PaymentAggregate.kt:146-161 | canBeCancelled holds exactly when isSuccessful and exactly when cancel is allowed; isPending holds exactly when approve and reject are allowed |
| Payments.ApproveThenCancel | payment/src/main/kotlin/com/airline/payment/domain/model/PaymentAggregate.kt:90-141 | approve then cancel on a PENDING payment ends CANCELLED with PaymentApproved then PaymentCancelled logged |
| PaymentApplication.ErrorMessage | payment/src/main/kotlin/com/airline/payment/exception/PaymentExceptions.kt:10-26 | the exception messages prefix "Invalid payment request: " and "Payment processing failed: " |
| PaymentApplication.ValidatePaymentRequest | payment/src/main/kotlin/com/airline/payment/service/PaymentService.kt:180-201 | blank reservation id, amount ≤ 0, blank method, missing customer and blank customer name or email are refused in that order, and a request passes exactly when none applies |
| PaymentApplication.ResponseOf | payment/src/main/kotlin/com/airline/payment/mapper/PaymentMapper.kt:30-39 | the response carries the payment id, status and processing time of the stored payment |
| PaymentApplication.ApprovedNotice | payment/src/main/kotlin/com/airline/payment/service/PaymentService.kt:208-210 | the approval is published on "payment.approved" with a text that ends with the reservation id |
| PaymentApplication.CanProcessPayment | payment/src/main/kotlin/com/airline/payment/domain/service/PaymentDomainService.kt:61-74 | a payment can be processed exactly when it is PENDING and at most 100,000,000 |
| PaymentApplication.PaymentService.constructor | payment/src/main/kotlin/com/airline/payment/service/PaymentService.kt:56-165 | the service starts on the given stored payments and has published nothing |
| PaymentApplication.PaymentService.Load | payment/src/main/kotlin/com/airline/payment/mapper/PaymentMapper.kt:67-79 | the stored payment is rebuilt as a fresh aggregate with the same fields and no events |
| PaymentApplication.PaymentService.Save | payment/src/main/kotlin/com/airline/payment/mapper/PaymentMapper.kt:47-59 | saving stores the aggregate's fields under its id and nothing else |
| PaymentApplication.PaymentService.GetPaymentById | payment/src/main/kotlin/com/airline/payment/service/PaymentService.kt:110-122 | a blank id throws InvalidPaymentRequest, an unknown one PaymentNotFound, a known one returns its response |
| PaymentApplication.PaymentService.ProcessPayment | payment/src/main/kotlin/com/airline/payment/service/PaymentService.kt:56-102 | a refused request, a failed create or an amount over the limit throw with nothing stored or published; otherwise the payment is stored under its new id with the trimmed reservation id, the amount, the normalised method, the trimmed name, the trimmed lower-cased e-mail and the processing time; an approved one is SUCCESS, returned and published on "payment.approved"; a declined one is stored FAILED, not published, and PaymentProcessing "External payment system declined: …" is thrown |
| PaymentApplication.PaymentService.ProcessCreated | payment/src/main/kotlin/com/airline/payment/service/PaymentService.kt:75-101 | from the created aggregate: over the limit throws and changes nothing; otherwise the stored record carries the aggregate's id, reservation, amount, method, customer name and e-mail and the processing time, with the same approve/reject branches as processPayment |
| PaymentApplication.PaymentService.Settle | payment/src/main/kotlin/com/airline/payment/service/PaymentService.kt:80-101 | the approve and reject branches: the stored record keeps the payment's id, reservation, amount, method, customer name and e-mail and has the processing time; approved is SUCCESS and published; declined is FAILED and throws |
| PaymentApplication.PaymentService.CancelStored | payment/src/main/kotlin/com/airline/payment/service/PaymentService.kt:152-160 | a SUCCESS payment is stored CANCELLED with the cancel message, its response returned and "payment.cancelled" published |
| PaymentApplication.PaymentService.CancelPayment | payment/src/main/kotlin/com/airline/payment/service/PaymentService.kt:133-165 | a blank id, an unknown id, a CANCELLED payment and a PENDING or FAILED one throw their own errors and change nothing; a SUCCESS one is stored CANCELLED and published |
| SeatNumbers.Of | ticket/src/main/kotlin/com/airline/ticket/domain/valueobject/SeatNumber.kt:9-22 | a blank value is refused; otherwise trim().uppercase() must match one to three digits followed by a letter A–F and is stored; other values are refused quoting the input |
| SeatNumbers.OfIdempotent | ticket/src/main/kotlin/com/airline/ticket/domain/valueobject/SeatNumber.kt:11-22 | `of` accepts its own output unchanged, and that output matches the pattern |
| SeatNumbers.OfFixedPoints | ticket/src/main/kotlin/com/airline/ticket/domain/valueobject/SeatNumber.kt:9-22 | a seat number is its own `of` exactly when it matches the pattern |
| SeatNumbers.LowerCaseSeatAccepted | ticket/src/main/kotlin/com/airline/ticket/domain/valueobject/SeatNumber.kt:16-21 | " 12a " is accepted as 12A |
| SeatNumbers.MalformedSeatsRefused | ticket/src/main/kotlin/com/airline/ticket/domain/valueobject/SeatNumber.kt:9-19 | "7G", "G7" and "1234A" are refused |
| SeatNumbers.RowNumber | ticket/src/main/kotlin/com/airline/ticket/domain/valueobject/SeatNumber.kt:28 | the numeric prefix, below 1000 |
| SeatNumbers.SeatLetter | ticket/src/main/kotlin/com/airline/ticket/domain/valueobject/SeatNumber.kt:33 | the last character, a letter A–F |
| SeatNumbers.SeatKindsPartition | ticket/src/main/kotlin/com/airline/ticket/domain/valueobject/SeatNumber.kt:38-48 | window (A, F), aisle (C, D) and middle (B, E): exactly one holds |
| Tickets.Transition | ticket/src/main/kotlin/com/airline/ticket/domain/model/TicketAggregate.kt:102-154 | issue only from PENDING (giving ISSUED); cancel and change of seat only from ISSUED (giving CANCELLED, and keeping ISSUED) |
| Tickets.NeverPendingAgain | ticket/src/main/kotlin/com/airline/ticket/domain/model/TicketAggregate.kt:102-154 | no sequence of operations leads back to PENDING |
| Tickets.CancelledIsTerminal | ticket/src/main/kotlin/com/airline/ticket/domain/model/TicketAggregate.kt:122-154 | CANCELLED accepts no further operation |
| Tickets.CancelledOnlyAfterIssue | ticket/src/main/kotlin/com/airline/ticket/domain/model/TicketAggregate.kt:102-135 | a ticket reaches CANCELLED only through a cancel, and from PENDING only through an issue before it |
| Tickets.TrimOption | ticket/src/main/kotlin/com/airline/ticket/domain/valueobject/PassengerInfo.kt:37-38 | optional fields are trimmed when present and stay absent otherwise |
| Tickets.PassengerOf | ticket/src/main/kotlin/com/airline/ticket/domain/valueobject/PassengerInfo.kt:14-40 | blank name, blank email and malformed email refused in that order; the stored passenger is trimmed with the email lower-cased |
| Tickets.PassengerOfNormal | ticket/src/main/kotlin/com/airline/ticket/domain/valueobject/PassengerInfo.kt:16-40 | the passenger built is in normal form |
| Tickets.NormalPassengerRebuilds | ticket/src/main/kotlin/com/airline/ticket/domain/valueobject/PassengerInfo.kt:16-40 | a passenger in normal form rebuilds to itself |
| Tickets.PaymentIdOf | ticket/src/main/kotlin/com/airline/ticket/domain/model/TicketAggregate.kt:46 | an absent payment id is kept absent; a present one must be non-blank and is trimmed |
| Tickets.BuildIdentity | ticket/src/main/kotlin/com/airline/ticket/domain/model/TicketAggregate.kt:32-63 | the value objects of create/reconstruct succeed exactly when each accepts its input; the ticket id is checked first, then the reservation id |
| Tickets.IdentityRoundTrip | ticket/src/main/kotlin/com/airline/ticket/domain/model/TicketAggregate.kt:32-96 | the identity built is in normal form |
| Tickets.NormalIdentityRebuilds | ticket/src/main/kotlin/com/airline/ticket/domain/model/TicketAggregate.kt:68-96 | reconstructing from a normal identity's own fields gives it back |
| Tickets.TicketAggregate.constructor | ticket/src/main/kotlin/com/airline/ticket/domain/model/TicketAggregate.kt:17-26 | a ticket holds the given identity, status, time, message and events |
| Tickets.TicketAggregate.Create | ticket/src/main/kotlin/com/airline/ticket/domain/model/TicketAggregate.kt:32-63 | create throws exactly the value objects' first error; otherwise a fresh PENDING ticket with one TicketCreated event |
| Tickets.TicketAggregate.Reconstruct | ticket/src/main/kotlin/com/airline/ticket/domain/model/TicketAggregate.kt:68-96 | reconstruct validates the same way and restores the status, time and message with no events |
| Tickets.TicketAggregate.Issue | ticket/src/main/kotlin/com/airline/ticket/domain/model/TicketAggregate.kt:102-117 | allowed exactly from PENDING, giving ISSUED, the issue message, the time and one TicketIssued event; otherwise TicketAlreadyIssued and nothing changes |
| Tickets.TicketAggregate.Cancel | ticket/src/main/kotlin/com/airline/ticket/domain/model/TicketAggregate.kt:122-135 | allowed exactly from ISSUED, giving CANCELLED and one TicketCancelled event; otherwise InvalidTicketOperation and nothing changes |
| Tickets.TicketAggregate.ChangeSeat | ticket/src/main/kotlin/com/airline/ticket/domain/model/TicketAggregate.kt:140-154 | refused unless ISSUED and unless the new seat is valid, changing nothing; otherwise the seat is replaced by `of(new)`, the status stays ISSUED and SeatChanged(old, new) is appended |
| Tickets.TicketAggregate.MoveToSeat | ticket/src/main/kotlin/com/airline/ticket/domain/model/TicketAggregate.kt:147-153 | the seat change itself: new seat, message naming old and new, one SeatChanged event |
| Tickets.TicketAggregate.ClearDomainEvents | ticket/src/main/kotlin/com/airline/ticket/domain/model/TicketAggregate.kt:191-193 | the event log is emptied |
| Tickets.TicketAggregate.CanBeCancelled | ticket/src/main/kotlin/com/airline/ticket/domain/model/TicketAggregate.kt:159 | exactly when cancel is accepted from the status |
| Tickets.TicketAggregate.IsIssued | ticket/src/main/kotlin/com/airline/ticket/domain/model/TicketAggregate.kt:164 | the active status; it is final and issue is refused from it |
| Tickets.TicketAggregate.IsCancelled | ticket/src/main/kotlin/com/airline/ticket/domain/model/TicketAggregate.kt:169 | exactly when issue and cancel are both refused; then the status is final and every operation is refused |
| Tickets.TicketAggregate.CanChangeSeat | ticket/src/main/kotlin/com/airline/ticket/domain/model/TicketAggregate.kt:174 | exactly when changeSeat is accepted from the status |
| Tickets.GuardsAgree | ticket/src/main/kotlin/com/airline/ticket/domain/model/TicketAggregate.kt:159-174 | canBeCancelled and canChangeSeat both hold exactly when the ticket is ISSUED, and exactly when the operations are allowed |
| Tickets.IssueThenCancel | ticket/src/main/kotlin/com/airline/ticket/domain/model/TicketAggregate.kt:102-135 | issue then cancel on a PENDING ticket ends CANCELLED with TicketIssued then TicketCancelled logged |
| TicketMapping.ToEntityStatus | ticket/src/main/kotlin/com/airline/ticket/mapper/TicketMapper.kt:160-166 | the entity status never is USED or EXPIRED, and is ISSUED exactly for ISSUED |
| TicketMapping.ToDomainStatus | ticket/src/main/kotlin/com/airline/ticket/mapper/TicketMapper.kt:171-179 | USED reads back as ISSUED and EXPIRED as CANCELLED |
| TicketMapping.DomainOfEntityStatus | ticket/src/main/kotlin/com/airline/ticket/mapper/TicketMapper.kt:160-179 | convertToDomainStatus(convertToEntityStatus(s)) == s |
| TicketMapping.EntityStatusInjective | ticket/src/main/kotlin/com/airline/ticket/mapper/TicketMapper.kt:160-166 | convertToEntityStatus is injective |
| TicketMapping.EntityStatusRoundTrip | ticket/src/main/kotlin/com/airline/ticket/mapper/TicketMapper.kt:160-179 | an entity status survives the round trip exactly when it is not USED or EXPIRED |
| TicketMapping.EntityOfRequest | ticket/src/main/kotlin/com/airline/ticket/mapper/TicketMapper.kt:33-48 | the new entity has the given id and seat, status ISSUED, the time and the issue message |
| TicketMapping.ResponseOf | ticket/src/main/kotlin/com/airline/ticket/mapper/TicketMapper.kt:56-73 | the response carries the entity's id, status, seat and time, with a missing payment id as "" |
| TicketMapping.ResponseKeepsRequest | ticket/src/main/kotlin/com/airline/ticket/mapper/TicketMapper.kt:33-73 | the response of a new ticket repeats the request's reservation, payment, flight and passenger |
| TicketApplication.GenerateTicketId | ticket/src/main/kotlin/com/airline/ticket/service/TicketService.kt:99-102 | the prefix followed by at most uuidLength leading characters of the UUID |
| TicketApplication.DefaultTicketIdLength | ticket/src/main/kotlin/com/airline/ticket/config/TicketConfig.kt:44-49 | with the defaults the ticket id has 12 characters |
| TicketApplication.GenerateSeatNumber | ticket/src/main/kotlin/com/airline/ticket/service/TicketService.kt:155-160 | the row in decimal followed by the column |
| TicketApplication.AssignSeatNumber | ticket/src/main/kotlin/com/airline/ticket/service/TicketService.kt:108-110 | the requested seat if present, otherwise the generated one |
| TicketApplication.GeneratedSeatValid | ticket/src/main/kotlin/com/airline/ticket/service/TicketService.kt:155-160 | a row of 1–999 and a column A–F give a seat number `of` accepts unchanged, whose row and letter are the ones drawn |
| TicketApplication.DefaultSeatsValid | ticket/src/main/kotlin/com/airline/ticket/config/TicketConfig.kt:32-37 | every seat the default configuration can generate is a valid seat number |
| TicketApplication.CancelledEntity | ticket/src/main/kotlin/com/airline/ticket/service/TicketService.kt:136-147 | the cancelled ticket differs only by status CANCELLED and message "항공권 취소됨" |
| TicketApplication.IssuedNotice | ticket/src/main/kotlin/com/airline/ticket/service/TicketService.kt:122-124 | the issue is published on "ticket.issued" with a text that ends with the reservation id |
| TicketApplication.CancelledNotice | ticket/src/main/kotlin/com/airline/ticket/service/TicketService.kt:143 | the cancellation is published on "ticket.cancelled" with a text that ends with the ticket id |
| TicketApplication.TicketService.Lookup | ticket/src/main/kotlin/com/airline/ticket/service/TicketService.kt:69-73 | a stored ticket is found by its id and a missing one is not |
| TicketApplication.TicketService.constructor | ticket/src/main/kotlin/com/airline/ticket/service/TicketService.kt:46-147 | the service starts on the given tickets and has published nothing |
| TicketApplication.TicketService.IssueTicket | ticket/src/main/kotlin/com/airline/ticket/service/TicketService.kt:46-61 | the new ticket is stored ISSUED under the new ticket id with the assigned seat, nothing else changes, one "ticket.issued" message is sent and its response returned |
| TicketApplication.TicketService.GetTicketById | ticket/src/main/kotlin/com/airline/ticket/service/TicketService.kt:69-73 | the response of the stored ticket, or null |
| TicketApplication.TicketService.CancelTicket | ticket/src/main/kotlin/com/airline/ticket/service/TicketService.kt:84-94 | a missing or not ISSUED ticket gives null and nothing changes; an ISSUED one is stored CANCELLED with "항공권 취소됨", "ticket.cancelled" is sent and its response returned |
| TicketApplication.CancelGuardsAgree | ticket/src/main/kotlin/com/airline/ticket/service/TicketService.kt:129-131 | the service's guard agrees with the aggregate's cancel on every domain status; a USED ticket is refused although it reads back as ISSUED |
| TicketApplication.IssueThenCancelTwice | ticket/src/main/kotlin/com/airline/ticket/service/TicketService.kt:46-94 | a ticket just issued can be cancelled once, and a second cancel gives null |
| ReservationDomain.PassengerProblem | reservation/src/main/kotlin/com/airline/reservation/domain/ReservationAggregate.kt:131-136 | blank name, email or phone, or an email without '@', are refused in that order, each with its own message, and only these |
| ReservationDomain.NewPassengerInfo | reservation/src/main/kotlin/com/airline/reservation/domain/ReservationAggregate.kt:125-136 | PassengerInfo is built exactly when name, email and phone are non-blank and the email contains '@'; otherwise IllegalArgumentException |
| ReservationDomain.Create | reservation/src/main/kotlin/com/airline/reservation/domain/ReservationAggregate.kt:32-51 | a blank flight id, name or email gives ValidationError in that order; success is PENDING with the new id and no payment, ticket or seat |
| ReservationDomain.ReserveSeat | reservation/src/main/kotlin/com/airline/reservation/domain/ReservationAggregate.kt:57-60 | SEAT_RESERVED, with everything else kept |
| ReservationDomain.CompletePayment | reservation/src/main/kotlin/com/airline/reservation/domain/ReservationAggregate.kt:65-70 | PAYMENT_COMPLETED with the payment id and amount; ticket and seat unchanged |
| ReservationDomain.IssueTicket | reservation/src/main/kotlin/com/airline/reservation/domain/ReservationAggregate.kt:75-80 | CONFIRMED with the ticket id and seat; payment and amount unchanged |
| ReservationDomain.MarkAsFailed | reservation/src/main/kotlin/com/airline/reservation/domain/ReservationAggregate.kt:85-88 | FAILED with message = reason; everything else kept |
| ReservationDomain.Cancel | reservation/src/main/kotlin/com/airline/reservation/domain/ReservationAggregate.kt:93-106 | succeeds exactly when the reservation is CONFIRMED, giving CANCELLED "예약 취소됨"; otherwise ValidationError |
| ReservationDomain.CanBeCancelled | reservation/src/main/kotlin/com/airline/reservation/domain/ReservationAggregate.kt:106 | holds exactly when cancel succeeds |
| ReservationDomain.HappyPathConfirms | reservation/src/main/kotlin/com/airline/reservation/domain/ReservationAggregate.kt:32-106 | create, reserveSeat, completePayment, issueTicket give CONFIRMED with all the ids, which can be cancelled once |
| ReservationDomain.CancelOnce | reservation/src/main/kotlin/com/airline/reservation/domain/ReservationAggregate.kt:93-101 | a cancelled reservation cannot be cancelled again |
| ReservationDomain.CompensationFor | reservation/src/main/kotlin/com/airline/reservation/domain/ReservationAggregate.kt:142-147 | the compensation carries the ids given and seatsToRelease = 1 |
| ReservationPersistence.ToEntity | reservation/src/main/kotlin/com/airline/reservation/mapper/ReservationMapper.kt:31-47 | the new entity is PENDING with the aggregate's id, flight and passenger and no payment, ticket or seat |
| ReservationPersistence.ToResponse | reservation/src/main/kotlin/com/airline/reservation/mapper/ReservationMapper.kt:55-73 | the response repeats the entity's fields, a missing phone or passport as "" |
| ReservationPersistence.ReservationRepository.constructor | reservation/src/main/kotlin/com/airline/reservation/repository/ReservationRepository.kt:29-126 | the repository starts empty |
| ReservationPersistence.ReservationRepository.Save | reservation/src/main/kotlin/com/airline/reservation/repository/ReservationRepository.kt:29-32 | stores r under its id, overwriting, and returns r; other keys unchanged |
| ReservationPersistence.ReservationRepository.FindById | reservation/src/main/kotlin/com/airline/reservation/repository/ReservationRepository.kt:40-42 | the stored entity or null |
| ReservationPersistence.ReservationRepository.FindAll | reservation/src/main/kotlin/com/airline/reservation/repository/ReservationRepository.kt:49-51 | all stored entities |
| ReservationPersistence.ReservationRepository.FindByFlightId | reservation/src/main/kotlin/com/airline/reservation/repository/ReservationRepository.kt:59-61 | exactly the stored entities of that flight |
| ReservationPersistence.ReservationRepository.FindByPassengerEmail | reservation/src/main/kotlin/com/airline/reservation/repository/ReservationRepository.kt:69-71 | exactly the stored entities with that email |
| ReservationPersistence.ReservationRepository.FindByStatus | reservation/src/main/kotlin/com/airline/reservation/repository/ReservationRepository.kt:79-81 | exactly the stored entities with that status |
| ReservationPersistence.ReservationRepository.FindByPaymentId | reservation/src/main/kotlin/com/airline/reservation/repository/ReservationRepository.kt:89-91 | exactly the stored entities with that payment id |
| ReservationPersistence.ReservationRepository.ExistsById | reservation/src/main/kotlin/com/airline/reservation/repository/ReservationRepository.kt:99-101 | whether the id is stored |
| ReservationPersistence.ReservationRepository.DeleteById | reservation/src/main/kotlin/com/airline/reservation/repository/ReservationRepository.kt:108-110 | the id is no longer stored and nothing else changes |
| ReservationPersistence.ReservationRepository.Count | reservation/src/main/kotlin/com/airline/reservation/repository/ReservationRepository.kt:117-119 | the number of distinct ids stored |
| ReservationPersistence.ReservationRepository.DeleteAll | reservation/src/main/kotlin/com/airline/reservation/repository/ReservationRepository.kt:124-126 | nothing is stored afterwards |
| ReservationPersistence.SaveThenFind | reservation/src/main/kotlin/com/airline/reservation/repository/ReservationRepository.kt:29-42 | after save(r), findById(r.id) is r and other ids are unaffected |
| ReservationPersistence.SaveCount | reservation/src/main/kotlin/com/airline/reservation/repository/ReservationRepository.kt:29-32 | save adds one to count for a new id and none for an existing id |
| ReservationPersistence.DeleteCount | reservation/src/main/kotlin/com/airline/reservation/repository/ReservationRepository.kt:108-119 | deleteById takes one from count exactly when the id was stored |
| ReservationPersistence.WithStatusPartition | reservation/src/main/kotlin/com/airline/reservation/repository/ReservationRepository.kt:79-81 | each stored entity is found by its own status and by no other |
| DomainEvents.NewEvent | reservation/src/main/kotlin/com/airline/reservation/domain/DomainEvents.kt:17-22 | a new event has version 1 and the given aggregate id and payload |
| DomainEvents.KindInjective | reservation/src/main/kotlin/com/airline/reservation/domain/DomainEvents.kt:23-90 | two payloads get the same variant number exactly when they are built by the same one of the eight event classes |
| DomainEvents.TopicsDistinct | reservation/src/main/kotlin/com/airline/reservation/domain/DomainEvents.kt:184-193 | two events share a topic exactly when they are the same variant |
| DomainEvents.After | reservation/src/main/kotlin/com/airline/reservation/domain/DomainEvents.kt:224-227 | exactly the events with version > v, each as many times as in the list; with AfterAppend and AfterSingleton also in their order |
| DomainEvents.AfterSingleton | reservation/src/main/kotlin/com/airline/reservation/domain/DomainEvents.kt:224-227 | one event is kept exactly when its version is above v |
| DomainEvents.AfterAppend | reservation/src/main/kotlin/com/airline/reservation/domain/DomainEvents.kt:224-227 | filtering distributes over appending |
| DomainEvents.AfterAllOrNothing | reservation/src/main/kotlin/com/airline/reservation/domain/DomainEvents.kt:224-227 | as every event has version 1, getEventsAfter(v) is everything for v < 1 and nothing otherwise |
| DomainEvents.InMemoryEventStore.constructor | reservation/src/main/kotlin/com/airline/reservation/domain/DomainEvents.kt:211-212 | the store starts empty |
| DomainEvents.InMemoryEventStore.Stored | reservation/src/main/kotlin/com/airline/reservation/domain/DomainEvents.kt:220-222 | an unknown aggregate has no events |
| DomainEvents.InMemoryEventStore.SaveEvent | reservation/src/main/kotlin/com/airline/reservation/domain/DomainEvents.kt:215-218 | the event is appended to its aggregate's list; other lists unchanged |
| DomainEvents.InMemoryEventStore.GetEvents | reservation/src/main/kotlin/com/airline/reservation/domain/DomainEvents.kt:220-222 | the stored list, empty for an unknown aggregate |
| DomainEvents.InMemoryEventStore.GetEventsAfter | reservation/src/main/kotlin/com/airline/reservation/domain/DomainEvents.kt:224-227 | exactly the stored events with version > v, in order |
| ReservationSaga.Then | reservation/src/main/kotlin/com/airline/reservation/service/ImprovedReservationService.kt:97-107 | the flatMap chain: a failure stops the chain with the calls and saves so far; a success continues with the next step's result, calls and saves appended |
| ReservationSaga.MapFailure | reservation/src/main/kotlin/com/airline/reservation/service/ImprovedReservationService.kt:390-397 | mapFailure returns its input unchanged, for Success and Failure alike |
| ReservationSaga.RecoverWith | reservation/src/main/kotlin/com/airline/reservation/service/ImprovedReservationService.kt:399-402 | recoverWith keeps a Success and applies its transform only to a Failure |
| ReservationSaga.FlightLookup | reservation/src/main/kotlin/com/airline/reservation/service/ImprovedReservationService.kt:275-296 | the flight is returned exactly when it exists and has a seat available |
| ReservationSaga.ValidateFlightAvailability | reservation/src/main/kotlin/com/airline/reservation/service/ImprovedReservationService.kt:275-296 | getFlightById, then checkAvailability only for a known flight; succeeds exactly when both do, with the flight; failures surface as "Unexpected error" |
| ReservationSaga.ReserveFlightSeats | reservation/src/main/kotlin/com/airline/reservation/service/ImprovedReservationService.kt:298-303 | one reserveSeats call; succeeds exactly when it returns |
| ReservationSaga.ValidateAndReserveFlight | reservation/src/main/kotlin/com/airline/reservation/service/ImprovedReservationService.kt:113-119 | getFlightById, checkAvailability for a known flight, and reserveSeats(flightId, 1) only once validation succeeded; nothing saved; the flight is returned exactly when validation and the reservation both succeed, otherwise "Unexpected error" |
| ReservationSaga.PaymentCall | reservation/src/main/kotlin/com/airline/reservation/service/ImprovedReservationService.kt:312-325 | the payment returns exactly when the client returns a SUCCESS response |
| ReservationSaga.PaymentRequestFor | reservation/src/main/kotlin/com/airline/reservation/service/ImprovedReservationService.kt:233-245 | the payment request names the reservation, charges the flight price with the requested method, to the passenger's name and e-mail |
| ReservationSaga.ProcessPaymentStep | reservation/src/main/kotlin/com/airline/reservation/service/ImprovedReservationService.kt:121-133 | one processPayment call; on success the reservation is completePayment(paymentId, flight price) |
| ReservationSaga.IssueTicketStep | reservation/src/main/kotlin/com/airline/reservation/service/ImprovedReservationService.kt:135-147 | one issueTicket call; on success the reservation is issueTicket(ticketId, seat) |
| ReservationSaga.TicketRequestFor | reservation/src/main/kotlin/com/airline/reservation/service/ImprovedReservationService.kt:247-261 | the ticket request names the reservation, the payment, the requested flight and the passenger, and asks for no particular seat |
| ReservationSaga.ConfirmedEntity | reservation/src/main/kotlin/com/airline/reservation/service/ImprovedReservationService.kt:163-171 | the saved entity is CONFIRMED with the aggregate's payment, ticket, amount, seat and message |
| ReservationSaga.SaveAndPublish | reservation/src/main/kotlin/com/airline/reservation/service/ImprovedReservationService.kt:149-180 | saves the CONFIRMED entity, then publishes "reservation.created"; succeeds exactly when the publish does |
| ReservationSaga.CompensationResultsSucceed | reservation/src/main/kotlin/com/airline/reservation/service/ImprovedReservationService.kt:358-370 | the collected results are all successes exactly when every attempted step returned |
| ReservationSaga.CompensationCalls | reservation/src/main/kotlin/com/airline/reservation/service/ImprovedReservationService.kt:358-362 | a ticket is cancelled exactly when the info has a ticket id, a payment exactly when it has a payment id, the ticket first, and the seats are always released last |
| ReservationSaga.ExecuteCompensation | reservation/src/main/kotlin/com/airline/reservation/service/ImprovedReservationService.kt:355-371 | cancelTicket only with a ticket id, cancelPayment only with a payment id, then releaseSeats always; Success exactly when every attempted step succeeded, otherwise SystemError "Compensation partially failed" |
| ReservationSaga.FailedEntity | reservation/src/main/kotlin/com/airline/reservation/service/ImprovedReservationService.kt:195-210 | the entity saved is FAILED with the error's message |
| ReservationSaga.HandleReservationFailure | reservation/src/main/kotlin/com/airline/reservation/service/ImprovedReservationService.kt:182-214 | compensation is run from the reservation's own ids |
| ReservationSaga.ProcessReservationWorkflow | reservation/src/main/kotlin/com/airline/reservation/service/ImprovedReservationService.kt:93-111 | a successful chain is the answer as it is; a failed one is followed by handleReservationFailure on the reservation as first created, whose result replaces the failure and whose calls and saves follow the chain's |
| ReservationSaga.CreateWorkflow | reservation/src/main/kotlin/com/airline/reservation/service/ImprovedReservationService.kt:51-70 | an invalid passenger gives the circuit breaker fallback and a failed create its error, both with no call and no save; otherwise the workflow runs on the created reservation |
| ReservationSaga.CreateReservationFallback | reservation/src/main/kotlin/com/airline/reservation/service/ImprovedReservationService.kt:263-266 | the fallback answers SystemError with the fallback message and the exception as cause |
| ReservationSaga.GetById | reservation/src/main/kotlin/com/airline/reservation/service/ImprovedReservationService.kt:72-80 | blank id and unknown id fail with their messages; a known id gives the entity's response |
| ReservationSaga.ExecuteCancellation | reservation/src/main/kotlin/com/airline/reservation/service/ImprovedReservationService.kt:216-231 | the compensation calls for the response's ids; a partial failure saves nothing; after full success the stored entity is saved CANCELLED "예약 취소됨" and returned, or, when it is gone, an "Unexpected error" with no save |
| ReservationSaga.CancelWorkflow | reservation/src/main/kotlin/com/airline/reservation/service/ImprovedReservationService.kt:82-91 | a failed lookup is returned as it is, a reservation that is not CONFIRMED gives ValidationError, both with no call and no save; a CONFIRMED one goes to executeCancellation |
| ReservationSaga.ApplySaves | reservation/src/main/kotlin/com/airline/reservation/repository/ReservationRepository.kt:29-32 | the repository after a sequence of saves holds every saved id and only those added |
| ReservationSaga.ApplySavesAppend | reservation/src/main/kotlin/com/airline/reservation/repository/ReservationRepository.kt:29-32 | saving s then t is saving s + t |
| ReservationSaga.ApplyOneSave | reservation/src/main/kotlin/com/airline/reservation/repository/ReservationRepository.kt:29-32 | one save is one map update |
| ReservationSagaProperties.InvalidPassengerFallsBack | reservation/src/main/kotlin/com/airline/reservation/service/ImprovedReservationService.kt:50-62 | an invalid passenger throws before any call or save and the fallback answers |
| ReservationSagaProperties.CreateFailureCallsNothing | reservation/src/main/kotlin/com/airline/reservation/service/ImprovedReservationService.kt:54-64 | a failing create fails with its ValidationError before any adapter is called or anything saved |
| ReservationSagaProperties.AllStepsSucceed | reservation/src/main/kotlin/com/airline/reservation/service/ImprovedReservationService.kt:93-180 | when every adapter succeeds, exactly one entity is saved, CONFIRMED, with the payment id, ticket id, seat and flight price, after the six calls in order |
| ReservationSagaProperties.ChainFailuresAreUnexpected | reservation/src/main/kotlin/com/airline/reservation/service/ImprovedReservationService.kt:390-397 | every failure of the chain is a SystemError "Unexpected error", as mapFailure changes nothing |
| ReservationSagaProperties.StepFailureCompensates | reservation/src/main/kotlin/com/airline/reservation/service/ImprovedReservationService.kt:108-214 | any step failure after create compensates from the PENDING aggregate: only the seat release is called; when it succeeds a FAILED entity with the error's message is saved and returned, otherwise "Compensation partially failed" with no save |
| ReservationSagaProperties.PublishFailureLeavesFailedEntity | reservation/src/main/kotlin/com/airline/reservation/service/ImprovedReservationService.kt:149-214 | a failed publish after the CONFIRMED save overwrites it with FAILED, with no payment id |
| ReservationSagaProperties.CancelRequiresConfirmed | reservation/src/main/kotlin/com/airline/reservation/service/ImprovedReservationService.kt:82-91 | a stored reservation that is not CONFIRMED gives ValidationError and no call |
| ReservationSagaProperties.CancelUnknown | reservation/src/main/kotlin/com/airline/reservation/service/ImprovedReservationService.kt:72-91 | a blank or unknown id gives getReservationById's failure and no call |
| ReservationSagaProperties.CancelConfirmed | reservation/src/main/kotlin/com/airline/reservation/service/ImprovedReservationService.kt:216-231 | a CONFIRMED reservation compensates with its own ids; when every step succeeds it is saved CANCELLED "예약 취소됨", otherwise "Compensation partially failed" with no save |
| ReservationApplication.ReservationService.constructor | reservation/src/main/kotlin/com/airline/reservation/service/ImprovedReservationService.kt:34-47 | the service works on the given repository |
| ReservationApplication.ReservationService.SaveAndPublishReservation | reservation/src/main/kotlin/com/airline/reservation/service/ImprovedReservationService.kt:149-180 | result, calls and repository match SaveAndPublish |
| ReservationApplication.ReservationService.HandleFailure | reservation/src/main/kotlin/com/airline/reservation/service/ImprovedReservationService.kt:182-214 | result, calls and repository match HandleReservationFailure |
| ReservationApplication.ReservationService.ProcessWorkflow | reservation/src/main/kotlin/com/airline/reservation/service/ImprovedReservationService.kt:93-111 | result, calls and repository match the workflow function |
| ReservationApplication.ReservationService.CreateReservation | reservation/src/main/kotlin/com/airline/reservation/service/ImprovedReservationService.kt:51-70 | result, calls and repository match the create workflow |
| ReservationApplication.ReservationService.GetReservationById | reservation/src/main/kotlin/com/airline/reservation/service/ImprovedReservationService.kt:72-80 | the result of GetById on the repository |
| ReservationApplication.ReservationService.CancelReservation | reservation/src/main/kotlin/com/airline/reservation/service/ImprovedReservationService.kt:82-91 | result, calls and repository match the cancel workflow |

## Left out

- Logging, tracing, metrics, controllers, Kafka listeners, the Feign clients' HTTP transport and the dependency-injection configuration: I/O plumbing. Remote calls are the `Adapters` outcomes and Kafka sends are recorded messages.
- The circuit breaker on createReservation: only its fallback answer is modelled (it is taken when PassengerInfo throws). Its open/half-open state machine depends on timing.
- Timestamps, UUIDs and random draws are parameters. The event `timestamp` and `eventId` are not generated.
- PaymentDomainService.calculateSuccessRate and processExternalPayment use floating point and randomness. The external result is a parameter of processPayment.
- findBy* and findAll return sets: the map's iteration order is not modelled.
- Case mapping and whitespace are modelled for ASCII plus the Unicode characters the trim and upper-case functions treat specially. Other non-ASCII case mappings are left out.
- PaymentRepository, TicketRepository, FlightRepository and the *DomainRepositoryImpl files: stores are maps inside each service, keyed as the source keys them.
- FlightMapper, and PaymentMapper other than toResponse, toEntity and toDomainAggregate (used for Load/Save): field copies.
- TicketMapper toEntity(aggregate), toDomainAggregate and toResponse(aggregate): used only by the domain repository.
- ReservationMapper.toResponseList: a list map of toResponse.
- The ticket's ReservationId.kt is not part of this model; reservation ids are validated like the other ids.
- Payment's PaymentId.kt is not part of this model; the payment store is keyed by the trimmed id.
- PassengerInfo getIdentifier, hasPassport and hasPhone; the CustomerInfo identifier: presentation helpers.
- FlightAggregate.create and isBeforeDeparture, and the Airport, Route, FlightId, PriceInfo and Schedule value objects: schedule and route validation depend on clocks.
- The flight event PriceChanged used by changePrice is not declared in FlightDomainEvent.java. It is modelled as an event carrying the old and the new price.
- searchFlights, getFlightById, the legacy issue() and pay() methods, generatePaymentId, toJson and getAllEvents: outside the saga and aggregates.
- ReservationService.kt and ReservationDSL.kt: superseded variants of the saga.
- TicketApplication.TicketService.IssueTicket: requires a drawable row and column when no seat is requested, because an empty row range or column list makes the source's random draw throw. uuidLength is a `nat`.
- TicketApplication.TicketService.IssueTicket: a requested seat number is stored without validation, as in the source.
- TicketApplication.TicketService.CancelTicket: the entity is updated as a value in the map, so aliasing of the mutated entity object is not modelled.
- ReservationSaga.HandleReservationFailure: its contract states only the calls. The result and the saves are stated by StepFailureCompensates, for the reservation the create workflow builds.
- Flights.FlightAggregate.ReleaseSeats and FlightApplication.ReleaseSeatsOutcome: they use the corrected SeatInventories.Release. The overflow of the release as written is the finding below.

## Findings

| source | as written | input that shows it | evidently intended | confidence | as-written member | corrected member |
|---|---|---|---|---|---|---|
| flight/src/main/java/com/airline/flight/domain/valueobject/SeatInventory.java:51 | `availableSeats + seatCount > totalSeats` and the new count are computed in 32-bit `int`, which wraps | inventory (total 100, available 10), release(2147483647): the sum wraps to -2147483639, the check passes, and available becomes -2147483639 (lemma SeatInventories.ReleaseAsWrittenOverflows; the corrected release keeps 0 ≤ available ≤ total by SeatInventories.ReleaseKeepsValid) | refuse any release that would exceed the total | not executed | SeatInventories.ReleaseAsWritten | SeatInventories.Release |
