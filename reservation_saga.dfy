/** The synchronous reservation saga: validate the flight and reserve a seat,
    pay, issue the ticket, then save and publish; on any failure compensate
    and record the reservation as FAILED. Cancellation compensates a
    confirmed reservation and records it as CANCELLED.

    The Feign clients and the Kafka template are not called: each call's
    outcome (what it returns or throws) is an input, collected in an
    Adapters value, and every run reports the calls it made, in order. */
module ReservationSaga {
  import opened Optional
  import opened Text
  import opened Money
  import opened DomainResult
  import opened ReservationDomain
  import opened ReservationPersistence

  /** The incoming request, with its passenger flattened. */
  datatype ReservationRequest = ReservationRequest(
    flightId: string,
    passengerName: string,
    passengerEmail: string,
    passengerPhone: string,
    passportNumber: Option<string>,
    seatPreference: Option<string>,
    paymentMethod: string)

  /** The parts of the other services' responses that the saga reads. */
  datatype FlightDto = FlightDto(flightId: string, price: Decimal, availableSeats: int)
  datatype AvailabilityResponse = AvailabilityResponse(available: bool, flightId: string, availableSeats: int, message: string)
  datatype ExternalPaymentStatus = PaymentSuccess | PaymentFailed | PaymentPending | PaymentCancelled
  datatype PaymentResponse = PaymentResponse(paymentId: string, status: ExternalPaymentStatus, amount: Decimal, message: string)
  datatype TicketResponse = TicketResponse(ticketId: string, seatNumber: string)

  datatype PaymentRequest = PaymentRequest(reservationId: string, amount: Decimal, paymentMethod: string,
                                           customerName: string, customerEmail: string)
  datatype TicketRequest = TicketRequest(reservationId: string, paymentId: string, flightId: string,
                                         passenger: PassengerInfo, seatNumber: Option<string>)

  /** A call to another service or to Kafka. */
  datatype AdapterCall =
    | GetFlightById(flightId: string)
    | CheckAvailability(flightId: string, requestedSeats: int)
    | ReserveSeats(flightId: string, seats: int)
    | ProcessPayment(payment: PaymentRequest)
    | IssueTicket(ticket: TicketRequest)
    | PublishKafka(topic: string, message: string)
    | CancelTicket(ticketId: string)
    | CancelPayment(paymentId: string)
    | ReleaseSeats(flightId: string, seats: int)

  /** What each adapter call returns or throws. */
  datatype Adapters = Adapters(
    getFlight: Outcome<Option<FlightDto>>,
    checkAvailability: Outcome<AvailabilityResponse>,
    reserveSeats: Outcome<()>,
    processPayment: Outcome<PaymentResponse>,
    issueTicket: Outcome<TicketResponse>,
    publish: Outcome<()>,
    cancelTicket: Outcome<()>,
    cancelPayment: Outcome<()>,
    releaseSeats: Outcome<()>)

  /** A step's result, the adapter calls it made and the entities it saved. */
  datatype Run<T> = Run(result: Result<T>, calls: seq<AdapterCall>, saves: seq<Reservation>)

  /** flatMap over runs: the second step runs only after a success, and the
      calls and saves of both are kept in order. */
  function Then<T, U>(a: Run<T>, f: T -> Run<U>): (b: Run<U>)
    ensures a.result.Failure? ==> b == Run(Failure(a.result.error), a.calls, a.saves)
    ensures a.result.Success? ==> b.result == f(a.result.data).result
                                  && b.calls == a.calls + f(a.result.data).calls
                                  && b.saves == a.saves + f(a.result.data).saves
  {
    match a.result
    case Failure(e) => Run(Failure(e), a.calls, a.saves)
    case Success(d) =>
      var r := f(d);
      Run(r.result, a.calls + r.calls, a.saves + r.saves)
  }

  /** The private mapFailure extension, as written: its first `when` already
      covers Success and Failure, so it returns its receiver and never
      applies the transform. */
  function MapFailure<T>(r: Result<T>, transform: Throwable -> DomainError): (m: Result<T>)
    ensures m == r
  {
    match r
    case Success(_) => r
    case Failure(_) => r
  }

  /** The private recoverWith extension: the transform runs on a Failure only. */
  function RecoverWith<T>(r: Result<T>, transform: DomainError -> Result<T>): (m: Result<T>)
    ensures r.Success? ==> m == r
    ensures r.Failure? ==> m == transform(r.error)
  {
    match r
    case Success(_) => r
    case Failure(e) => transform(e)
  }

  /** A failure reported through runCatching. */
  predicate IsUnexpected(e: DomainError) {
    e.SystemError? && "Unexpected error: " <= e.message
  }

  /** The body of FlightService.validateFlightAvailability: look the flight up,
      throw NoSuchElementException when it is missing and
      IllegalStateException when the availability check says no. */
  function FlightLookup(flightId: string, ad: Adapters): (o: Outcome<FlightDto>)
    ensures o.Returns? <==> ad.getFlight.Returns? && ad.getFlight.value.Some?
                            && ad.checkAvailability.Returns? && ad.checkAvailability.value.available
    ensures o.Returns? ==> o.value == ad.getFlight.value.value
  {
    match ad.getFlight
    case Throws(x) => Throws(x)
    case Returns(None) => Throws(Throwable(NoSuchElement, Some("Flight not found: " + flightId), None))
    case Returns(Some(flight)) =>
      match ad.checkAvailability
      case Throws(x) => Throws(x)
      case Returns(availability) =>
        if !availability.available
        then Throws(Throwable(IllegalState, Some("No available seats for flight: " + flightId), None))
        else Returns(flight)
  }

  function ValidateFlightAvailability(flightId: string, requestedSeats: int, ad: Adapters): (run: Run<FlightDto>)
    ensures run.calls == [GetFlightById(flightId)]
                         + (if ad.getFlight.Returns? && ad.getFlight.value.Some?
                            then [CheckAvailability(flightId, requestedSeats)] else [])
    ensures run.saves == []
    ensures run.result.Success? <==> FlightLookup(flightId, ad).Returns?
    ensures run.result.Success? ==> run.result.data == ad.getFlight.value.value
    ensures run.result.Failure? ==> IsUnexpected(run.result.error)
  {
    var calls := [GetFlightById(flightId)]
                 + (if ad.getFlight.Returns? && ad.getFlight.value.Some?
                    then [CheckAvailability(flightId, requestedSeats)] else []);
    var r := MapFailure(RunCatching(FlightLookup(flightId, ad)),
                        (x: Throwable) => if x.kind == NoSuchElement then FlightNotFoundOf(flightId)
                                          else SystemError("Flight validation failed", Some(x)));
    Run(r, calls, [])
  }

  function ReserveFlightSeats(flightId: string, seats: int, ad: Adapters): (run: Run<()>)
    ensures run.calls == [ReserveSeats(flightId, seats)] && run.saves == []
    ensures run.result.Success? <==> ad.reserveSeats.Returns?
    ensures run.result.Failure? ==> IsUnexpected(run.result.error)
  {
    Run(RunCatching(ad.reserveSeats), [ReserveSeats(flightId, seats)], [])
  }

  /** validateAndReserveFlight: check one seat, then reserve it. */
  function ValidateAndReserveFlight(flightId: string, ad: Adapters): (run: Run<FlightDto>)
    ensures run.calls == ValidateFlightAvailability(flightId, 1, ad).calls
                         + (if FlightLookup(flightId, ad).Returns? then [ReserveSeats(flightId, 1)] else [])
    ensures run.saves == []
    ensures run.result.Success? <==> FlightLookup(flightId, ad).Returns? && ad.reserveSeats.Returns?
    ensures run.result.Success? ==> run.result.data == ad.getFlight.value.value
    ensures run.result.Failure? ==> IsUnexpected(run.result.error)
  {
    Then(ValidateFlightAvailability(flightId, 1, ad), (flight: FlightDto) =>
      var reserved := ReserveFlightSeats(flightId, 1, ad);
      Run(Map(reserved.result, (_: ()) => flight), reserved.calls, reserved.saves))
  }

  /** The body of PaymentService.processPayment: a response whose status is
      not SUCCESS is thrown as IllegalStateException. */
  function PaymentCall(ad: Adapters): (o: Outcome<PaymentResponse>)
    ensures o.Returns? <==> ad.processPayment.Returns? && ad.processPayment.value.status == PaymentSuccess
    ensures o.Returns? ==> o.value == ad.processPayment.value
  {
    match ad.processPayment
    case Throws(x) => Throws(x)
    case Returns(response) =>
      if response.status != PaymentSuccess
      then Throws(Throwable(IllegalState, Some("Payment declined: " + response.message), None))
      else Returns(response)
  }

  /** createPaymentRequest: the flight's price is charged to the passenger. */
  function PaymentRequestFor(reservation: ReservationAggregate, flight: FlightDto, request: ReservationRequest)
    : (p: PaymentRequest)
    ensures p.reservationId == reservation.reservationId && p.amount == flight.price
    ensures p.paymentMethod == request.paymentMethod
    ensures p.customerName == reservation.passenger.name && p.customerEmail == reservation.passenger.email
  {
    PaymentRequest(reservation.reservationId, flight.price, request.paymentMethod,
                   reservation.passenger.name, reservation.passenger.email)
  }

  function ProcessPaymentStep(reservation: ReservationAggregate, flight: FlightDto, request: ReservationRequest,
                              ad: Adapters): (run: Run<(ReservationAggregate, PaymentResponse)>)
    ensures run.calls == [ProcessPayment(PaymentRequestFor(reservation, flight, request))] && run.saves == []
    ensures run.result.Success? <==> PaymentCall(ad).Returns?
    ensures run.result.Success? ==> run.result.data.0 == CompletePayment(reservation, ad.processPayment.value.paymentId, flight.price)
    ensures run.result.Failure? ==> IsUnexpected(run.result.error)
  {
    var paid := MapFailure(RunCatching(PaymentCall(ad)),
                           (x: Throwable) => PaymentDeclined("Payment processing failed: " + MessageText(x.message), Some(x)));
    Run(Map(paid, (payment: PaymentResponse) =>
              (CompletePayment(reservation, payment.paymentId, flight.price), payment)),
        [ProcessPayment(PaymentRequestFor(reservation, flight, request))], [])
  }

  /** createTicketRequest: the ticket names the payment and the passenger and
      leaves the seat to the ticket service. */
  function TicketRequestFor(reservation: ReservationAggregate, payment: PaymentResponse, request: ReservationRequest)
    : (t: TicketRequest)
    ensures t.reservationId == reservation.reservationId && t.paymentId == payment.paymentId
    ensures t.flightId == request.flightId && t.passenger == reservation.passenger && t.seatNumber.None?
  {
    TicketRequest(reservation.reservationId, payment.paymentId, request.flightId, reservation.passenger, None)
  }

  function IssueTicketStep(reservation: ReservationAggregate, payment: PaymentResponse, request: ReservationRequest,
                           ad: Adapters): (run: Run<(ReservationAggregate, TicketResponse)>)
    ensures run.calls == [IssueTicket(TicketRequestFor(reservation, payment, request))] && run.saves == []
    ensures run.result.Success? <==> ad.issueTicket.Returns?
    ensures run.result.Success? ==> run.result.data.0 == ReservationDomain.IssueTicket(
                                      reservation, ad.issueTicket.value.ticketId, ad.issueTicket.value.seatNumber)
    ensures run.result.Failure? ==> IsUnexpected(run.result.error)
  {
    var issued := MapFailure(RunCatching(ad.issueTicket),
                             (x: Throwable) => TicketIssuanceFailed("Ticket issuance failed: " + MessageText(x.message), Some(x)));
    Run(Map(issued, (ticket: TicketResponse) =>
              (ReservationDomain.IssueTicket(reservation, ticket.ticketId, ticket.seatNumber), ticket)),
        [IssueTicket(TicketRequestFor(reservation, payment, request))], [])
  }

  /** The entity saveAndPublishReservation writes. */
  function ConfirmedEntity(reservation: ReservationAggregate): (e: Reservation)
    ensures e.reservationId == reservation.reservationId && e.status == Confirmed
    ensures e.paymentId == reservation.paymentId && e.ticketId == reservation.ticketId
    ensures e.totalAmount == reservation.totalAmount && e.seatNumber == reservation.seatNumber
    ensures e.message == reservation.message && e.flightId == reservation.flightId
  {
    ToEntity(reservation).(status := Confirmed, paymentId := reservation.paymentId, ticketId := reservation.ticketId,
                           totalAmount := reservation.totalAmount, seatNumber := reservation.seatNumber,
                           message := reservation.message)
  }

  function CompletedEvent(reservation: ReservationAggregate): AdapterCall {
    PublishKafka("reservation.created", "Reservation completed: " + reservation.reservationId)
  }

  /** saveAndPublishReservation: save the CONFIRMED entity, then publish; a
      failed publish is reported after the entity has been saved. */
  function SaveAndPublish(reservation: ReservationAggregate, ad: Adapters): (run: Run<ReservationResponse>)
    ensures run.saves == [ConfirmedEntity(reservation)] && run.calls == [CompletedEvent(reservation)]
    ensures run.result.Success? <==> ad.publish.Returns?
    ensures run.result.Success? ==> run.result.data == ToResponse(ConfirmedEntity(reservation))
    ensures run.result.Failure? ==> IsUnexpected(run.result.error)
  {
    var entity := ConfirmedEntity(reservation);
    var block := match ad.publish
                 case Throws(x) => Throws(x)
                 case Returns(_) => Returns(ToResponse(entity));
    Run(RunCatching(block), [CompletedEvent(reservation)], [entity])
  }

  /** The calls a compensation makes: cancel the ticket if there is one, then
      the payment if there is one, then always release the seats. */
  function CompensationCalls(info: CompensationInfo): (c: seq<AdapterCall>)
    ensures 1 <= |c| <= 3 && c[|c| - 1] == ReleaseSeats(info.flightId, info.seatsToRelease)
    ensures forall t :: CancelTicket(t) in c <==> info.ticketId == Some(t)
    ensures forall p :: CancelPayment(p) in c <==> info.paymentId == Some(p)
    ensures info.ticketId.Some? ==> c[0] == CancelTicket(info.ticketId.value)
  {
    (if info.ticketId.Some? then [CancelTicket(info.ticketId.value)] else [])
    + (if info.paymentId.Some? then [CancelPayment(info.paymentId.value)] else [])
    + [ReleaseSeats(info.flightId, info.seatsToRelease)]
  }

  /** The list of step results executeCompensation collects. */
  function CompensationResults(info: CompensationInfo, ad: Adapters): seq<Result<()>> {
    (if info.ticketId.Some? then [RunCatching(ad.cancelTicket)] else [])
    + (if info.paymentId.Some? then [RunCatching(ad.cancelPayment)] else [])
    + [RunCatching(ad.releaseSeats)]
  }

  /** The collected results are all successes exactly when every attempted step returned. */
  lemma CompensationResultsSucceed(info: CompensationInfo, ad: Adapters)
    ensures (forall k | 0 <= k < |CompensationResults(info, ad)| :: CompensationResults(info, ad)[k].Success?)
            <==> AllAttemptedSucceed(info, ad)
  {
    var t := if info.ticketId.Some? then [RunCatching(ad.cancelTicket)] else [];
    var p := if info.paymentId.Some? then [RunCatching(ad.cancelPayment)] else [];
    var results := CompensationResults(info, ad);
    assert results == t + p + [RunCatching(ad.releaseSeats)];
    assert results[|results| - 1] == RunCatching(ad.releaseSeats);
    if info.ticketId.Some? {
      assert results[0] == RunCatching(ad.cancelTicket);
    }
    if info.paymentId.Some? {
      assert results[|t|] == RunCatching(ad.cancelPayment);
    }
  }

  /** Every compensating step the info calls for succeeded. */
  predicate AllAttemptedSucceed(info: CompensationInfo, ad: Adapters) {
    && (info.ticketId.Some? ==> ad.cancelTicket.Returns?)
    && (info.paymentId.Some? ==> ad.cancelPayment.Returns?)
    && ad.releaseSeats.Returns?
  }

  /** CompensationService.executeCompensation: every step is attempted, in the
      order ticket, payment, seats; the result is a success exactly when all
      of them succeeded. */
  function ExecuteCompensation(info: CompensationInfo, ad: Adapters): (run: Run<()>)
    ensures run.calls == CompensationCalls(info) && run.saves == []
    ensures run.result.Success? <==> AllAttemptedSucceed(info, ad)
    ensures run.result.Failure? ==> run.result.error == SystemError("Compensation partially failed", None)
  {
    var results := CompensationResults(info, ad);
    CompensationResultsSucceed(info, ad);
    if forall k | 0 <= k < |results| :: results[k].Success?
    then Run(Success(()), CompensationCalls(info), [])
    else Run(Failure(SystemError("Compensation partially failed", None)), CompensationCalls(info), [])
  }

  /** The entity handleReservationFailure writes. */
  function FailedEntity(reservation: ReservationAggregate, reason: string): (e: Reservation)
    ensures e.reservationId == reservation.reservationId && e.status == Failed && e.message == reason
    ensures e.flightId == reservation.flightId
  {
    var failed := MarkAsFailed(reservation, reason);
    ToEntity(failed).(status := Failed, message := failed.message)
  }

  /** handleReservationFailure: compensate from the aggregate it is given and,
      if that succeeds, save it as FAILED with the error's message. */
  function HandleReservationFailure(reservation: ReservationAggregate, error: DomainError, ad: Adapters)
    : (run: Run<ReservationResponse>)
    ensures run.calls == CompensationCalls(CompensationFor(reservation.flightId, reservation.paymentId, reservation.ticketId))
  {
    var compensation := ExecuteCompensation(CompensationFor(reservation.flightId, reservation.paymentId,
                                                            reservation.ticketId), ad);
    match compensation.result
    case Success(_) =>
      var entity := FailedEntity(reservation, error.message);
      Run(Success(ToResponse(entity)), compensation.calls, [entity])
    case Failure(e) => Run(Failure(e), compensation.calls, [])
  }

  /** The booking steps up to the issued ticket. */
  function BookingSteps(reservation: ReservationAggregate, request: ReservationRequest, ad: Adapters)
    : Run<(ReservationAggregate, TicketResponse)>
  {
    Then(Then(ValidateAndReserveFlight(reservation.flightId, ad),
              (flight: FlightDto) => ProcessPaymentStep(ReserveSeat(reservation), flight, request, ad)),
         (paid: (ReservationAggregate, PaymentResponse)) => IssueTicketStep(paid.0, paid.1, request, ad))
  }

  /** The chain processReservationWorkflow runs before recoverWith. */
  function MainChain(reservation: ReservationAggregate, request: ReservationRequest, ad: Adapters)
    : Run<ReservationResponse>
  {
    Then(BookingSteps(reservation, request, ad),
         (issued: (ReservationAggregate, TicketResponse)) => SaveAndPublish(issued.0, ad))
  }

  /** processReservationWorkflow: the chain, recovered by compensation. */
  function ProcessReservationWorkflow(reservation: ReservationAggregate, request: ReservationRequest, ad: Adapters)
    : (run: Run<ReservationResponse>)
    ensures MainChain(reservation, request, ad).result.Success? ==> run == MainChain(reservation, request, ad)
    ensures var chain := MainChain(reservation, request, ad);
            chain.result.Failure? ==>
              var recovery := HandleReservationFailure(reservation, chain.result.error, ad);
              && run.result == recovery.result
              && run.calls == chain.calls + recovery.calls
              && run.saves == chain.saves + recovery.saves
  {
    var chain := MainChain(reservation, request, ad);
    match chain.result
    case Success(_) => chain
    case Failure(e) =>
      var recovery := HandleReservationFailure(reservation, e, ad);
      Run(RecoverWith(chain.result, (_: DomainError) => recovery.result),
          chain.calls + recovery.calls, chain.saves + recovery.saves)
  }

  const FallbackMessage := "서비스 일시 중단. 잠시 후 다시 시도해주세요."

  /** createReservationFallback: what the circuit breaker returns when
      createReservation throws. */
  function CreateReservationFallback(ex: Throwable): (r: Result<ReservationResponse>)
    ensures r == Failure(SystemError(FallbackMessage, Some(ex)))
  {
    Failure(SystemError(FallbackMessage, Some(ex)))
  }

  /** createReservation. Building the PassengerInfo may throw; that exception
      leaves the method and the circuit breaker answers with its fallback.
      A create failure is returned as it is. */
  function CreateWorkflow(request: ReservationRequest, newId: string, ad: Adapters): (run: Run<ReservationResponse>)
    ensures var passenger := NewPassengerInfo(request.passengerName, request.passengerEmail, request.passengerPhone,
                                              request.passportNumber);
            && (passenger.Throws? ==> run == Run(CreateReservationFallback(passenger.exception), [], []))
            && (passenger.Returns? ==>
                  var created := Create(request.flightId, passenger.value, request.paymentMethod, newId);
                  && (created.Failure? ==> run == Run(Failure(created.error), [], []))
                  && (created.Success? ==> run == ProcessReservationWorkflow(created.data, request, ad)))
  {
    match NewPassengerInfo(request.passengerName, request.passengerEmail, request.passengerPhone, request.passportNumber)
    case Throws(x) => Run(CreateReservationFallback(x), [], [])
    case Returns(passenger) =>
      match Create(request.flightId, passenger, request.paymentMethod, newId)
      case Failure(e) => Run(Failure(e), [], [])
      case Success(reservation) => ProcessReservationWorkflow(reservation, request, ad)
  }

  /** getReservationById, on the repository's map. */
  function GetById(m: map<string, Reservation>, id: string): (r: Result<ReservationResponse>)
    ensures r.Success? <==> !IsBlank(id) && id in m
    ensures r.Success? ==> r.data == ToResponse(m[id])
    ensures IsBlank(id) ==> r.error == UnexpectedError(Throwable(IllegalArgument, Some("Reservation ID cannot be blank"), None))
    ensures !IsBlank(id) && id !in m
            ==> r.error == UnexpectedError(Throwable(NoSuchElement, Some("Reservation not found: " + id), None))
  {
    RunCatching(
      if IsBlank(id) then Throws(Throwable(IllegalArgument, Some("Reservation ID cannot be blank"), None))
      else if id in m then Returns(ToResponse(m[id]))
      else Throws(Throwable(NoSuchElement, Some("Reservation not found: " + id), None)))
  }

  /** executeCancellation: compensate everything the reservation holds, then
      reload the entity and save it as CANCELLED. */
  function ExecuteCancellation(m: map<string, Reservation>, response: ReservationResponse, ad: Adapters)
    : (run: Run<ReservationResponse>)
    ensures var info := CompensationFor(response.flightId, response.paymentId, response.ticketId);
            && run.calls == CompensationCalls(info)
            && (!AllAttemptedSucceed(info, ad)
                ==> run.result == Failure(SystemError("Compensation partially failed", None)) && run.saves == [])
            && (AllAttemptedSucceed(info, ad) && response.reservationId in m ==>
                  var entity := m[response.reservationId].(status := Cancelled, message := "예약 취소됨");
                  run.saves == [entity] && run.result == Success(ToResponse(entity)))
            && (AllAttemptedSucceed(info, ad) && response.reservationId !in m
                ==> run.saves == [] && run.result.Failure? && IsUnexpected(run.result.error))
  {
    var compensation := ExecuteCompensation(CompensationFor(response.flightId, response.paymentId, response.ticketId), ad);
    Then(compensation, (_: ()) =>
      if response.reservationId in m then
        var entity := m[response.reservationId].(status := Cancelled, message := "예약 취소됨");
        Run(Success(ToResponse(entity)), [], [entity])
      else
        // `findById(...)!!` on a missing entity throws a NullPointerException without a message
        Run(RunCatching(Throws(Throwable(NullPointer, None, None))), [], []))
  }

  /** cancelReservation */
  function CancelWorkflow(m: map<string, Reservation>, id: string, ad: Adapters): (run: Run<ReservationResponse>)
    ensures GetById(m, id).Failure? ==> run == Run(GetById(m, id), [], [])
    ensures GetById(m, id).Success? && GetById(m, id).data.status != Confirmed
            ==> run == Run(Failure(ValidationError("Only confirmed reservations can be cancelled")), [], [])
    ensures GetById(m, id).Success? && GetById(m, id).data.status == Confirmed
            ==> run == ExecuteCancellation(m, GetById(m, id).data, ad)
  {
    Then(Run(GetById(m, id), [], []), (response: ReservationResponse) =>
      if response.status == Confirmed then ExecuteCancellation(m, response, ad)
      else Run(Failure(ValidationError("Only confirmed reservations can be cancelled")), [], []))
  }

  /** The repository's map after a sequence of saves. */
  function ApplySaves(m: map<string, Reservation>, saves: seq<Reservation>): (m': map<string, Reservation>)
    ensures forall r :: r in saves ==> r.reservationId in m'
    ensures m'.Keys == m.Keys + set r | r in saves :: r.reservationId
    decreases |saves|
  {
    if saves == [] then m
    else ApplySaves(m[saves[0].reservationId := saves[0]], saves[1..])
  }

  /** Applying two runs of saves one after the other is applying their
      concatenation. */
  lemma {:induction false} ApplySavesAppend(m: map<string, Reservation>, s: seq<Reservation>, t: seq<Reservation>)
    ensures ApplySaves(ApplySaves(m, s), t) == ApplySaves(m, s + t)
    decreases |s|
  {
    if s == [] {
      assert s + t == t;
    } else {
      assert (s + t)[0] == s[0] && (s + t)[1..] == s[1..] + t;
      ApplySavesAppend(m[s[0].reservationId := s[0]], s[1..], t);
    }
  }

  /** One save stores the entity under its id. */
  lemma ApplyOneSave(m: map<string, Reservation>, r: Reservation)
    ensures ApplySaves(m, [r]) == m[r.reservationId := r]
  {
    assert [r][1..] == [];
  }
}

/** Properties of the saga and the service object that runs it against the
    reservation repository. */
module ReservationSagaProperties {
  import opened Optional
  import opened Text
  import opened Money
  import opened DomainResult
  import opened ReservationDomain
  import opened ReservationPersistence
  import opened ReservationSaga

  function PassengerOf(request: ReservationRequest): Outcome<PassengerInfo> {
    NewPassengerInfo(request.passengerName, request.passengerEmail, request.passengerPhone, request.passportNumber)
  }

  /** An invalid passenger makes createReservation throw before anything
      else happens; the circuit breaker's fallback answers. */
  lemma InvalidPassengerFallsBack(request: ReservationRequest, newId: string, ad: Adapters)
    requires PassengerOf(request).Throws?
    ensures var run := CreateWorkflow(request, newId, ad);
            && run.result == Failure(SystemError(FallbackMessage, Some(PassengerOf(request).exception)))
            && PassengerOf(request).exception.kind == IllegalArgument
            && run.calls == [] && run.saves == []
  {
  }

  /** A create failure is returned before any adapter is called and nothing is
      saved. Since the passenger was already checked, the only create check
      that can fail here is the blank flight id. */
  lemma CreateFailureCallsNothing(request: ReservationRequest, newId: string, ad: Adapters)
    requires PassengerOf(request).Returns?
    requires Create(request.flightId, PassengerOf(request).value, request.paymentMethod, newId).Failure?
    ensures IsBlank(request.flightId)
    ensures CreateWorkflow(request, newId, ad) == Run(Failure(ValidationError("Flight ID cannot be blank")), [], [])
  {
  }

  /** When every adapter call succeeds, the one saved entity is CONFIRMED and
      carries the payment id, ticket id, seat number and the flight's price,
      and the calls are the six of the happy path, in order. */
  lemma AllStepsSucceed(request: ReservationRequest, newId: string, ad: Adapters,
                        flight: FlightDto, payment: PaymentResponse, ticket: TicketResponse)
    requires PassengerOf(request).Returns? && !IsBlank(request.flightId)
    requires ad.getFlight == Returns(Some(flight))
    requires ad.checkAvailability.Returns? && ad.checkAvailability.value.available
    requires ad.reserveSeats.Returns?
    requires ad.processPayment == Returns(payment) && payment.status == PaymentSuccess
    requires ad.issueTicket == Returns(ticket)
    requires ad.publish.Returns?
    ensures var run := CreateWorkflow(request, newId, ad);
            && run.result.Success? && |run.saves| == 1
            && run.result.data == ToResponse(run.saves[0])
            && run.saves[0].reservationId == newId && run.saves[0].status == Confirmed
            && run.saves[0].paymentId == Some(payment.paymentId)
            && run.saves[0].ticketId == Some(ticket.ticketId)
            && run.saves[0].seatNumber == Some(ticket.seatNumber)
            && run.saves[0].totalAmount == flight.price
            && run.saves[0].message == "예약 완료"
            && run.calls == [GetFlightById(request.flightId), CheckAvailability(request.flightId, 1),
                             ReserveSeats(request.flightId, 1),
                             ProcessPayment(PaymentRequest(newId, flight.price, request.paymentMethod,
                                                           request.passengerName, request.passengerEmail)),
                             IssueTicket(TicketRequest(newId, payment.paymentId, request.flightId,
                                                       PassengerOf(request).value, None)),
                             PublishKafka("reservation.created", "Reservation completed: " + newId)]
  {
    var reservation := Create(request.flightId, PassengerOf(request).value, request.paymentMethod, newId).data;
    var flightRun := ValidateAndReserveFlight(reservation.flightId, ad);
    assert flightRun.result == Success(flight);
    var paid := ProcessPaymentStep(ReserveSeat(reservation), flight, request, ad);
    assert paid.result.Success?;
    var issued := IssueTicketStep(paid.result.data.0, paid.result.data.1, request, ad);
    assert issued.result.Success?;
  }

  /** Every failure of the chain is reported through runCatching, since
      mapFailure leaves failures as they are. */
  lemma ChainFailuresAreUnexpected(reservation: ReservationAggregate, request: ReservationRequest, ad: Adapters)
    requires MainChain(reservation, request, ad).result.Failure?
    ensures IsUnexpected(MainChain(reservation, request, ad).result.error)
  {
    var flightRun := ValidateAndReserveFlight(reservation.flightId, ad);
    if flightRun.result.Success? {
      var paid := ProcessPaymentStep(ReserveSeat(reservation), flightRun.result.data, request, ad);
      if paid.result.Success? {
        var issued := IssueTicketStep(paid.result.data.0, paid.result.data.1, request, ad);
        if issued.result.Success? {
          assert MainChain(reservation, request, ad).result == SaveAndPublish(issued.result.data.0, ad).result;
        }
      }
    }
  }

  /** A failure after create is compensated from the PENDING reservation:
      only its seat is released (no payment or ticket is cancelled). If the
      release succeeds the reservation is saved as FAILED with the error's
      message and the call reports success with that FAILED reservation;
      otherwise the result is "Compensation partially failed" and nothing
      more is saved. */
  lemma StepFailureCompensates(request: ReservationRequest, newId: string, ad: Adapters)
    requires PassengerOf(request).Returns?
    requires Create(request.flightId, PassengerOf(request).value, request.paymentMethod, newId).Success?
    requires MainChain(Create(request.flightId, PassengerOf(request).value, request.paymentMethod, newId).data,
                       request, ad).result.Failure?
    ensures var reservation := Create(request.flightId, PassengerOf(request).value, request.paymentMethod, newId).data;
            var chain := MainChain(reservation, request, ad);
            var run := CreateWorkflow(request, newId, ad);
            && run.calls == chain.calls + [ReleaseSeats(request.flightId, 1)]
            && (ad.releaseSeats.Returns? ==>
                  && run.saves == chain.saves + [FailedEntity(reservation, chain.result.error.message)]
                  && run.result.Success? && run.result.data.status == Failed
                  && run.result.data.message == chain.result.error.message
                  && run.result.data.reservationId == newId)
            && (ad.releaseSeats.Throws? ==>
                  run.saves == chain.saves && run.result == Failure(SystemError("Compensation partially failed", None)))
  {
  }

  /** The only save the chain itself can make is the CONFIRMED entity, and only
      when it then fails in publishing; the FAILED save that follows replaces
      it, so the repository ends with the FAILED entity. */
  lemma PublishFailureLeavesFailedEntity(request: ReservationRequest, newId: string, ad: Adapters,
                                         m: map<string, Reservation>)
    requires PassengerOf(request).Returns? && !IsBlank(request.flightId)
    requires ad.getFlight.Returns? && ad.getFlight.value.Some?
    requires ad.checkAvailability.Returns? && ad.checkAvailability.value.available
    requires ad.reserveSeats.Returns?
    requires ad.processPayment.Returns? && ad.processPayment.value.status == PaymentSuccess
    requires ad.issueTicket.Returns?
    requires ad.publish.Throws? && ad.releaseSeats.Returns?
    ensures var run := CreateWorkflow(request, newId, ad);
            && |run.saves| == 2 && run.saves[0].status == Confirmed
            && run.result.Success? && run.result.data.status == Failed
            && ApplySaves(m, run.saves)[newId].status == Failed
            && ApplySaves(m, run.saves)[newId].paymentId.None?
  {
    var reservation := Create(request.flightId, PassengerOf(request).value, request.paymentMethod, newId).data;
    var flightRun := ValidateAndReserveFlight(reservation.flightId, ad);
    assert flightRun.result.Success?;
    var paid := ProcessPaymentStep(ReserveSeat(reservation), flightRun.result.data, request, ad);
    assert paid.result.Success?;
    var issued := IssueTicketStep(paid.result.data.0, paid.result.data.1, request, ad);
    assert issued.result.Success?;
    var run := CreateWorkflow(request, newId, ad);
    var s := run.saves;
    ApplySavesAppend(m, [s[0]], [s[1]]);
    ApplyOneSave(m, s[0]);
    ApplyOneSave(ApplySaves(m, [s[0]]), s[1]);
    assert s == [s[0]] + [s[1]];
  }

  /** Cancelling a stored reservation that is not CONFIRMED is a
      ValidationError, with no adapter call and nothing saved. */
  lemma CancelRequiresConfirmed(m: map<string, Reservation>, id: string, ad: Adapters)
    requires !IsBlank(id) && id in m && m[id].status != Confirmed
    ensures CancelWorkflow(m, id, ad) == Run(Failure(ValidationError("Only confirmed reservations can be cancelled")), [], [])
  {
  }

  /** Cancelling a blank or unknown id fails as getReservationById does, with
      no adapter call and nothing saved. */
  lemma CancelUnknown(m: map<string, Reservation>, id: string, ad: Adapters)
    requires IsBlank(id) || id !in m
    ensures CancelWorkflow(m, id, ad) == Run(GetById(m, id), [], [])
  {
  }

  /** Cancelling a CONFIRMED reservation compensates its ticket, payment and
      seat in that order; when all succeed it is saved as CANCELLED with
      message "예약 취소됨", and otherwise nothing is saved. */
  lemma CancelConfirmed(m: map<string, Reservation>, id: string, ad: Adapters)
    requires !IsBlank(id) && id in m && m[id].reservationId == id && m[id].status == Confirmed
    ensures var run := CancelWorkflow(m, id, ad);
            && run.calls == CompensationCalls(CompensationFor(m[id].flightId, m[id].paymentId, m[id].ticketId))
            && (AllAttemptedSucceed(CompensationFor(m[id].flightId, m[id].paymentId, m[id].ticketId), ad) ==>
                  && run.saves == [m[id].(status := Cancelled, message := "예약 취소됨")]
                  && run.result == Success(ToResponse(m[id].(status := Cancelled, message := "예약 취소됨"))))
            && (!AllAttemptedSucceed(CompensationFor(m[id].flightId, m[id].paymentId, m[id].ticketId), ad) ==>
                  run.saves == [] && run.result == Failure(SystemError("Compensation partially failed", None)))
  {
  }
}
