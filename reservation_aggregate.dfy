/** The reservation aggregate: an immutable value whose transitions return
    updated copies, the passenger value object it carries, and the
    information a compensation needs. */
module ReservationDomain {
  import opened Optional
  import opened Text
  import opened Money
  import opened DomainResult

  datatype ReservationStatus = Pending | SeatReserved | PaymentCompleted | Confirmed | Cancelled | Failed

  /** A passenger as the aggregate holds it. */
  datatype PassengerInfo = PassengerInfo(name: string, email: string, phone: string, passportNumber: Option<string>)

  /** What the PassengerInfo constructor checks, in order, and the message
      of the IllegalArgumentException it throws for the first that fails. */
  function PassengerProblem(name: string, email: string, phone: string): (m: Option<string>)
    ensures m.None? <==> !IsBlank(name) && !IsBlank(email) && !IsBlank(phone) && '@' in email
    ensures IsBlank(name) ==> m == Some("Passenger name cannot be blank")
    ensures !IsBlank(name) && IsBlank(email) ==> m == Some("Passenger email cannot be blank")
    ensures !IsBlank(name) && !IsBlank(email) && IsBlank(phone) ==> m == Some("Passenger phone cannot be blank")
    ensures !IsBlank(name) && !IsBlank(email) && !IsBlank(phone) && '@' !in email ==> m == Some("Invalid email format")
  {
    if IsBlank(name) then Some("Passenger name cannot be blank")
    else if IsBlank(email) then Some("Passenger email cannot be blank")
    else if IsBlank(phone) then Some("Passenger phone cannot be blank")
    else if '@' !in email then Some("Invalid email format")
    else None
  }

  /** Constructing a PassengerInfo: it throws IllegalArgumentException when
      the name, e-mail or phone is blank or the e-mail has no '@'. */
  function NewPassengerInfo(name: string, email: string, phone: string, passportNumber: Option<string>)
    : (o: Outcome<PassengerInfo>)
    ensures o.Returns? <==> !IsBlank(name) && !IsBlank(email) && !IsBlank(phone) && '@' in email
    ensures o.Returns? ==> o.value == PassengerInfo(name, email, phone, passportNumber)
    ensures o.Throws? ==> o.exception.kind == IllegalArgument && o.exception.cause.None?
  {
    match PassengerProblem(name, email, phone)
    case Some(m) => Throws(Throwable(IllegalArgument, Some(m), None))
    case None => Returns(PassengerInfo(name, email, phone, passportNumber))
  }

  datatype ReservationAggregate = ReservationAggregate(
    reservationId: string,
    status: ReservationStatus,
    flightId: string,
    passenger: PassengerInfo,
    paymentId: Option<string>,
    ticketId: Option<string>,
    totalAmount: Decimal,
    seatNumber: Option<string>,
    message: string)

  /** ReservationAggregate.create, with the generated id as a parameter: a
      blank flight id, passenger name or e-mail, checked in that order, is a
      ValidationError; otherwise a PENDING reservation with nothing yet
      attached. */
  function Create(flightId: string, passenger: PassengerInfo, paymentMethod: string, newId: string)
    : (r: Result<ReservationAggregate>)
    ensures r.Failure? <==> IsBlank(flightId) || IsBlank(passenger.name) || IsBlank(passenger.email)
    ensures IsBlank(flightId) ==> r == Failure(ValidationError("Flight ID cannot be blank"))
    ensures !IsBlank(flightId) && IsBlank(passenger.name)
            ==> r == Failure(ValidationError("Passenger name cannot be blank"))
    ensures !IsBlank(flightId) && !IsBlank(passenger.name) && IsBlank(passenger.email)
            ==> r == Failure(ValidationError("Passenger email cannot be blank"))
    ensures r.Success? ==> r.data.status == Pending && r.data.reservationId == newId
                           && r.data.flightId == flightId && r.data.passenger == passenger
                           && r.data.paymentId.None? && r.data.ticketId.None?
                           && r.data.seatNumber.None? && r.data.totalAmount == Zero
  {
    if IsBlank(flightId) then Failure(ValidationError("Flight ID cannot be blank"))
    else if IsBlank(passenger.name) then Failure(ValidationError("Passenger name cannot be blank"))
    else if IsBlank(passenger.email) then Failure(ValidationError("Passenger email cannot be blank"))
    else Success(ReservationAggregate(newId, Pending, flightId, passenger, None, None, Zero, None, "예약 생성됨"))
  }

  /** Every field other than the ones a transition names is the same. */
  predicate SameIdentity(a: ReservationAggregate, b: ReservationAggregate) {
    a.reservationId == b.reservationId && a.flightId == b.flightId && a.passenger == b.passenger
  }

  function ReserveSeat(a: ReservationAggregate): (b: ReservationAggregate)
    ensures b.status == SeatReserved && b.message == "좌석 예약 완료"
    ensures SameIdentity(a, b) && b.paymentId == a.paymentId && b.ticketId == a.ticketId
            && b.totalAmount == a.totalAmount && b.seatNumber == a.seatNumber
  {
    a.(status := SeatReserved, message := "좌석 예약 완료")
  }

  function CompletePayment(a: ReservationAggregate, paymentId: string, amount: Decimal): (b: ReservationAggregate)
    ensures b.status == PaymentCompleted && b.message == "결제 완료"
    ensures b.paymentId == Some(paymentId) && b.totalAmount == amount
    ensures SameIdentity(a, b) && b.ticketId == a.ticketId && b.seatNumber == a.seatNumber
  {
    a.(paymentId := Some(paymentId), totalAmount := amount, status := PaymentCompleted, message := "결제 완료")
  }

  function IssueTicket(a: ReservationAggregate, ticketId: string, seatNumber: string): (b: ReservationAggregate)
    ensures b.status == Confirmed && b.message == "예약 완료"
    ensures b.ticketId == Some(ticketId) && b.seatNumber == Some(seatNumber)
    ensures SameIdentity(a, b) && b.paymentId == a.paymentId && b.totalAmount == a.totalAmount
  {
    a.(ticketId := Some(ticketId), seatNumber := Some(seatNumber), status := Confirmed, message := "예약 완료")
  }

  function MarkAsFailed(a: ReservationAggregate, reason: string): (b: ReservationAggregate)
    ensures b.status == Failed && b.message == reason
    ensures SameIdentity(a, b) && b.paymentId == a.paymentId && b.ticketId == a.ticketId
            && b.totalAmount == a.totalAmount && b.seatNumber == a.seatNumber
  {
    a.(status := Failed, message := reason)
  }

  /** canBeCancelled: exactly when cancel succeeds. */
  predicate CanBeCancelled(a: ReservationAggregate)
    ensures CanBeCancelled(a) <==> Cancel(a).Success?
  {
    a.status == Confirmed
  }

  /** cancel: only a CONFIRMED reservation can be cancelled. */
  function Cancel(a: ReservationAggregate): (r: Result<ReservationAggregate>)
    ensures r.Success? <==> a.status == Confirmed
    ensures r.Success? ==> r.data == a.(status := Cancelled, message := "예약 취소됨")
    ensures r.Failure? ==> r.error == ValidationError("Only confirmed reservations can be cancelled")
  {
    if a.status == Confirmed then Success(a.(status := Cancelled, message := "예약 취소됨"))
    else Failure(ValidationError("Only confirmed reservations can be cancelled"))
  }

  /** The saga's happy path walks PENDING, SEAT_RESERVED, PAYMENT_COMPLETED,
      CONFIRMED, and the confirmed reservation carries exactly what each step
      attached; it is then the one state from which cancel succeeds. */
  lemma HappyPathConfirms(flightId: string, passenger: PassengerInfo, paymentMethod: string, id: string,
                          paymentId: string, amount: Decimal, ticketId: string, seat: string)
    requires Create(flightId, passenger, paymentMethod, id).Success?
    ensures var a := Create(flightId, passenger, paymentMethod, id).data;
            var c := IssueTicket(CompletePayment(ReserveSeat(a), paymentId, amount), ticketId, seat);
            && c.status == Confirmed && c.reservationId == id && c.flightId == flightId
            && c.paymentId == Some(paymentId) && c.ticketId == Some(ticketId)
            && c.seatNumber == Some(seat) && c.totalAmount == amount
            && Cancel(c).Success? && Cancel(c).data.status == Cancelled
            && !CanBeCancelled(Cancel(c).data)
  {
  }

  /** No reservation can be cancelled twice. */
  lemma CancelOnce(a: ReservationAggregate)
    requires Cancel(a).Success?
    ensures Cancel(Cancel(a).data).Failure?
  {
  }

  /** CompensationInfo: what to undo, with seatsToRelease defaulting to 1. */
  datatype CompensationInfo = CompensationInfo(flightId: string, paymentId: Option<string>,
                                               ticketId: Option<string>, seatsToRelease: int)

  /** CompensationInfo(flightId, paymentId, ticketId) with the default seat count. */
  function CompensationFor(flightId: string, paymentId: Option<string>, ticketId: Option<string>)
    : (c: CompensationInfo)
    ensures c.seatsToRelease == 1
    ensures c.flightId == flightId && c.paymentId == paymentId && c.ticketId == ticketId
  {
    CompensationInfo(flightId, paymentId, ticketId, 1)
  }
}
