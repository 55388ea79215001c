/** The ticket aggregate root: a ticket whose status, seat, message and
    issue time change in place as it is issued, cancelled or moved to another
    seat, with a log of domain events. Times are supplied by the caller. */
module Tickets {
  import opened Optional
  import opened Exceptions
  import opened Text
  import opened Identifiers
  import opened SeatNumbers

  datatype TicketStatus = Pending | Issued | Cancelled

  /** The enum constant's name, as string templates print it. */
  function StatusName(s: TicketStatus): string {
    match s
    case Pending => "PENDING"
    case Issued => "ISSUED"
    case Cancelled => "CANCELLED"
  }

  predicate IsFinalStatus(s: TicketStatus) {
    s in {Issued, Cancelled}
  }

  predicate IsActiveStatus(s: TicketStatus) {
    s == Issued
  }

  predicate IsCancelledStatus(s: TicketStatus) {
    s == Cancelled
  }

  /** The guarded operations on a ticket. */
  datatype TicketCommand = Issue | Cancel | ChangeSeat

  /** The status an operation leads to, or None when the operation is refused
      in that status: issue from PENDING, cancel and change of seat from
      ISSUED, a change of seat keeping the status. */
  function Transition(s: TicketStatus, c: TicketCommand): (r: Option<TicketStatus>)
    ensures r.Some? <==> (c == Issue && s == Pending) || (c != Issue && s == Issued)
    ensures c == Issue && r.Some? ==> r.value == Issued
    ensures c == Cancel && r.Some? ==> r.value == Cancelled
    ensures c == ChangeSeat && r.Some? ==> r.value == s
  {
    match c
    case Issue => if s == Pending then Some(Issued) else None
    case Cancel => if s == Issued then Some(Cancelled) else None
    case ChangeSeat => if s == Issued then Some(Issued) else None
  }

  /** The status after a sequence of operations; a refused one throws and
      leaves the status as it was. */
  function Apply(s: TicketStatus, commands: seq<TicketCommand>): TicketStatus
    decreases |commands|
  {
    if commands == [] then s
    else Apply(OrElse(Transition(s, commands[0]), s), commands[1..])
  }

  /** Once issued, a ticket never returns to PENDING. */
  lemma {:induction false} NeverPendingAgain(s: TicketStatus, commands: seq<TicketCommand>)
    requires s != Pending
    ensures Apply(s, commands) != Pending
    decreases |commands|
  {
    if commands != [] {
      NeverPendingAgain(OrElse(Transition(s, commands[0]), s), commands[1..]);
    }
  }

  /** CANCELLED is terminal. */
  lemma {:induction false} CancelledIsTerminal(commands: seq<TicketCommand>)
    ensures Apply(Cancelled, commands) == Cancelled
    decreases |commands|
  {
    if commands != [] {
      CancelledIsTerminal(commands[1..]);
    }
  }

  /** A pending ticket ends up cancelled only through an issue followed,
      somewhere later, by a cancel. */
  lemma {:induction false} CancelledOnlyAfterIssue(s: TicketStatus, commands: seq<TicketCommand>)
    requires s != Cancelled && Apply(s, commands) == Cancelled
    ensures Cancel in commands
    ensures s == Pending ==> Issue in commands
    decreases |commands|
  {
    if commands == [] {
      assert false;
    } else {
      var next := OrElse(Transition(s, commands[0]), s);
      if next != Cancelled {
        CancelledOnlyAfterIssue(next, commands[1..]);
        if s == Pending && commands[0] != Issue {
          assert Issue in commands[1..];
        }
      }
    }
  }

  /** The passenger as the ticket's PassengerInfo keeps it. */
  datatype Passenger = Passenger(name: string, email: string, phone: Option<string>, passportNumber: Option<string>)

  /** Kotlin's `s?.trim()`. */
  function TrimOption(s: Option<string>): (r: Option<string>)
    ensures r.Some? <==> s.Some?
    ensures s.Some? ==> r.value == Trim(s.value)
  {
    match s
    case None => None
    case Some(v) => Some(Trim(v))
  }

  /** An absent value or one without surrounding whitespace is its own trim. */
  lemma TrimOptionOfTrimmed(s: Option<string>)
    requires s.Some? ==> Trimmed(s.value)
    ensures TrimOption(s) == s
  {
    if s.Some? {
      TrimOfTrimmed(s.value);
    }
  }

  /** A present value is trimmed by TrimOption. */
  lemma TrimOptionIsTrimmed(s: Option<string>)
    ensures TrimOption(s).Some? ==> Trimmed(TrimOption(s).value)
  {
    if s.Some? {
      TrimIsTrimmed(s.value);
    }
  }

  /** PassengerInfo.of: a blank name, a blank e-mail or an e-mail that does
      not match the pattern is refused; the name, phone and passport are kept
      trimmed and the e-mail trimmed and lower-cased. */
  function PassengerOf(name: string, email: string, phone: Option<string>, passportNumber: Option<string>)
    : (r: Try<Passenger, IllegalArgument>)
    ensures r.Return? <==> !IsBlank(name) && !IsBlank(email) && MatchesEmailPattern(email)
    ensures IsBlank(name) ==> r == Throw(IllegalArgument("Passenger name cannot be blank"))
    ensures !IsBlank(name) && IsBlank(email) ==> r == Throw(IllegalArgument("Passenger email cannot be blank"))
    ensures !IsBlank(name) && !IsBlank(email) && !MatchesEmailPattern(email)
            ==> r == Throw(IllegalArgument("Invalid email format: " + email))
    ensures r.Return? ==> r.value == Passenger(Trim(name), Lowercase(Trim(email)), TrimOption(phone), TrimOption(passportNumber))
  {
    if IsBlank(name) then Throw(IllegalArgument("Passenger name cannot be blank"))
    else if IsBlank(email) then Throw(IllegalArgument("Passenger email cannot be blank"))
    else if !MatchesEmailPattern(email) then Throw(IllegalArgument("Invalid email format: " + email))
    else Return(Passenger(Trim(name), Lowercase(Trim(email)), TrimOption(phone), TrimOption(passportNumber)))
  }

  /** What PassengerInfo.of keeps: a non-blank trimmed name, a lower-case
      e-mail matching the pattern, a trimmed phone and passport. */
  predicate NormalPassenger(p: Passenger) {
    && !IsBlank(p.name) && Trimmed(p.name)
    && MatchesEmailPattern(p.email) && IsLowerCase(p.email)
    && (p.phone.Some? ==> Trimmed(p.phone.value))
    && (p.passportNumber.Some? ==> Trimmed(p.passportNumber.value))
  }

  /** PassengerInfo.of returns a normal passenger. */
  lemma PassengerOfNormal(name: string, email: string, phone: Option<string>, passportNumber: Option<string>)
    requires PassengerOf(name, email, phone, passportNumber).Return?
    ensures NormalPassenger(PassengerOf(name, email, phone, passportNumber).value)
  {
    TrimIsTrimmed(name);
    TrimOptionIsTrimmed(phone);
    TrimOptionIsTrimmed(passportNumber);
    EmailNormalForm(email);
  }

  /** PassengerInfo.of gives a normal passenger back unchanged. */
  lemma NormalPassengerRebuilds(p: Passenger)
    requires NormalPassenger(p)
    ensures PassengerOf(p.name, p.email, p.phone, p.passportNumber) == Return(p)
  {
    TrimOfTrimmed(p.name);
    EmailHasNoSurroundingSpace(p.email);
    LowercaseIsLowerCase(p.email);
    TrimOptionOfTrimmed(p.phone);
    TrimOptionOfTrimmed(p.passportNumber);
    assert Passenger(Trim(p.name), Lowercase(Trim(p.email)), TrimOption(p.phone), TrimOption(p.passportNumber)) == p;
  }

  /** The value objects a ticket is built from. */
  datatype TicketIdentity = TicketIdentity(
    ticketId: string, reservationId: string, paymentId: Option<string>, flightId: string,
    passenger: Passenger, seatNumber: SeatNumber)

  /** `paymentId?.let { PaymentId.of(it) }` */
  function PaymentIdOf(paymentId: Option<string>): (r: Try<Option<string>, IllegalArgument>)
    ensures r.Return? <==> (paymentId.Some? ==> !IsBlank(paymentId.value))
    ensures r.Return? ==> r.value == TrimOption(paymentId)
    ensures r.Throw? ==> r.exception == IllegalArgument("Payment ID cannot be blank")
  {
    match paymentId
    case None => Return(None)
    case Some(v) =>
      match IdOf(v, "Payment ID cannot be blank")
      case Return(id) => Return(Some(id))
      case Throw(e) => Throw(e)
  }

  /** A stored payment id is read back unchanged. */
  lemma PaymentIdOfNormal(paymentId: Option<string>)
    requires paymentId.Some? ==> IsNormalId(paymentId.value)
    ensures PaymentIdOf(paymentId) == Return(paymentId)
  {
    if paymentId.Some? {
      IdOfIdempotent(paymentId.value, "Payment ID cannot be blank");
    }
  }

  /** The value-object checks of create and reconstruct, in the order the
      fields are set: ticket id, reservation id, payment id, flight id,
      passenger, seat number; the first failure is thrown. */
  function BuildIdentity(ticketId: string, reservationId: string, paymentId: Option<string>, flightId: string,
                         passengerName: string, passengerEmail: string, passengerPhone: Option<string>,
                         passportNumber: Option<string>, seatNumber: string): (r: Try<TicketIdentity, IllegalArgument>)
    ensures r.Return? <==> && !IsBlank(ticketId) && !IsBlank(reservationId) && PaymentIdOf(paymentId).Return?
                           && !IsBlank(flightId) && PassengerOf(passengerName, passengerEmail, passengerPhone, passportNumber).Return?
                           && SeatNumbers.Of(seatNumber).Return?
    ensures IsBlank(ticketId) ==> r == Throw(IllegalArgument("Ticket ID cannot be blank"))
    ensures !IsBlank(ticketId) && IsBlank(reservationId) ==> r == Throw(IllegalArgument("Reservation ID cannot be blank"))
    ensures r.Return? ==> r.value == TicketIdentity(Trim(ticketId), Trim(reservationId), TrimOption(paymentId), Trim(flightId),
                                                     PassengerOf(passengerName, passengerEmail, passengerPhone, passportNumber).value,
                                                     SeatNumbers.Of(seatNumber).value)
  {
    var tid := IdOf(ticketId, "Ticket ID cannot be blank");
    var rid := IdOf(reservationId, "Reservation ID cannot be blank");
    var pid := PaymentIdOf(paymentId);
    var fid := IdOf(flightId, "Flight ID cannot be blank");
    var passenger := PassengerOf(passengerName, passengerEmail, passengerPhone, passportNumber);
    var seat := SeatNumbers.Of(seatNumber);
    if tid.Throw? then Throw(tid.exception)
    else if rid.Throw? then Throw(rid.exception)
    else if pid.Throw? then Throw(pid.exception)
    else if fid.Throw? then Throw(fid.exception)
    else if passenger.Throw? then Throw(passenger.exception)
    else if seat.Throw? then Throw(seat.exception)
    else Return(TicketIdentity(tid.value, rid.value, pid.value, fid.value, passenger.value, seat.value))
  }

  /** Every value object in its normal form. */
  predicate NormalIdentity(id: TicketIdentity) {
    && IsNormalId(id.ticketId) && IsNormalId(id.reservationId)
    && (id.paymentId.Some? ==> IsNormalId(id.paymentId.value))
    && IsNormalId(id.flightId) && NormalPassenger(id.passenger) && SeatNumbers.Valid(id.seatNumber)
  }

  /** The identity a ticket is stored with builds back to itself: what the
      checks return is in normal form, and a normal form passes the checks
      unchanged. */
  lemma IdentityRoundTrip(ticketId: string, reservationId: string, paymentId: Option<string>, flightId: string,
                          passengerName: string, passengerEmail: string, passengerPhone: Option<string>,
                          passportNumber: Option<string>, seatNumber: string)
    requires BuildIdentity(ticketId, reservationId, paymentId, flightId, passengerName, passengerEmail,
                           passengerPhone, passportNumber, seatNumber).Return?
    ensures var id := BuildIdentity(ticketId, reservationId, paymentId, flightId, passengerName, passengerEmail,
                                    passengerPhone, passportNumber, seatNumber).value;
            NormalIdentity(id)
  {
    IdOfIdempotent(ticketId, "Ticket ID cannot be blank");
    IdOfIdempotent(reservationId, "Reservation ID cannot be blank");
    if paymentId.Some? {
      IdOfIdempotent(paymentId.value, "Payment ID cannot be blank");
    }
    IdOfIdempotent(flightId, "Flight ID cannot be blank");
    PassengerOfNormal(passengerName, passengerEmail, passengerPhone, passportNumber);
    OfIdempotent(seatNumber);
  }

  /** A normal identity passes the checks unchanged. */
  lemma NormalIdentityRebuilds(id: TicketIdentity)
    requires NormalIdentity(id)
    ensures BuildIdentity(id.ticketId, id.reservationId, id.paymentId, id.flightId, id.passenger.name, id.passenger.email,
                          id.passenger.phone, id.passenger.passportNumber, id.seatNumber.number) == Return(id)
  {
    TrimOfTrimmed(id.ticketId);
    TrimOfTrimmed(id.reservationId);
    PaymentIdOfNormal(id.paymentId);
    TrimOfTrimmed(id.flightId);
    NormalPassengerRebuilds(id.passenger);
    OfFixedPoints(id.seatNumber);
    assert TicketIdentity(Trim(id.ticketId), Trim(id.reservationId), TrimOption(id.paymentId), Trim(id.flightId),
                          id.passenger, id.seatNumber) == id;
  }

  /** Moving to another valid seat keeps an identity normal. */
  lemma NormalWithSeat(id: TicketIdentity, seat: SeatNumber)
    requires NormalIdentity(id) && SeatNumbers.Valid(seat)
    ensures NormalIdentity(id.(seatNumber := seat))
  {
  }

  datatype TicketEvent =
    | TicketCreated(ticketId: string, reservationId: string, flightId: string, passengerName: string, seatNumber: string)
    | TicketIssued(ticketId: string, reservationId: string, flightId: string, passengerName: string, seatNumber: string)
    | TicketCancelled(ticketId: string, reservationId: string, flightId: string, seatNumber: string)
    | SeatChanged(ticketId: string, flightId: string, oldSeatNumber: string, newSeatNumber: string)

  /** The aggregate's own exceptions, and a value object's
      IllegalArgumentException escaping changeSeat. */
  datatype TicketError =
    | TicketAlreadyIssued(message: string)
    | InvalidTicketOperation(message: string)
    | InvalidArgument(error: IllegalArgument)

  /** The message a refused change of seat throws. */
  function NotIssuedMessage(s: TicketStatus): string {
    "Can only change seat for issued tickets. Current status: " + StatusName(s)
  }

  /** The message a change of seat leaves. */
  function SeatChangedMessage(oldSeat: string, newSeat: string): string {
    "좌석 변경됨: " + oldSeat + " -> " + newSeat
  }

  class TicketAggregate {
    var ticketId: string
    var reservationId: string
    var paymentId: Option<string>
    var flightId: string
    var passenger: Passenger
    var seatNumber: SeatNumber
    var status: TicketStatus
    var issuedAt: Option<int>
    var message: string
    var domainEvents: seq<TicketEvent>

    function Identity(): TicketIdentity
      reads this`ticketId, this`reservationId, this`paymentId, this`flightId, this`passenger, this`seatNumber
    {
      TicketIdentity(ticketId, reservationId, paymentId, flightId, passenger, seatNumber)
    }

    /** The value objects passed their checks. */
    ghost predicate Valid()
      reads this`ticketId, this`reservationId, this`paymentId, this`flightId, this`passenger, this`seatNumber
    {
      NormalIdentity(Identity())
    }

    /** A ticket from values that already passed the checks, with the given
        pending events: reconstruct passes none, create its TicketCreated. */
    constructor (identity: TicketIdentity, status: TicketStatus, issuedAt: Option<int>, message: string,
                 domainEvents: seq<TicketEvent>)
      requires NormalIdentity(identity)
      ensures Valid() && Identity() == identity
      ensures this.status == status && this.issuedAt == issuedAt && this.message == message
      ensures this.domainEvents == domainEvents
    {
      ticketId := identity.ticketId;
      reservationId := identity.reservationId;
      paymentId := identity.paymentId;
      flightId := identity.flightId;
      passenger := identity.passenger;
      seatNumber := identity.seatNumber;
      this.status := status;
      this.issuedAt := issuedAt;
      this.message := message;
      this.domainEvents := domainEvents;
      new;
      assert Identity() == identity;
    }

    /** create: the value objects are checked in order and the first failure
        is thrown; otherwise the ticket is PENDING with the normalised values
        and one TicketCreated event carrying the arguments as given. */
    static method Create(ticketId: string, reservationId: string, paymentId: Option<string>, flightId: string,
                         passengerName: string, passengerEmail: string, passengerPhone: Option<string>,
                         passportNumber: Option<string>, seatNumber: string, now: int)
      returns (r: Try<TicketAggregate, IllegalArgument>)
      ensures var built := BuildIdentity(ticketId, reservationId, paymentId, flightId, passengerName, passengerEmail,
                                         passengerPhone, passportNumber, seatNumber);
              && (r.Throw? <==> built.Throw?)
              && (r.Throw? ==> r.exception == built.exception)
              && (r.Return? ==> && fresh(r.value) && r.value.Valid() && r.value.Identity() == built.value
                                && r.value.status == Pending && r.value.issuedAt == Some(now)
                                && r.value.message == "항공권 생성됨"
                                && r.value.domainEvents == [TicketCreated(ticketId, reservationId, flightId, passengerName, seatNumber)])
    {
      var built := BuildIdentity(ticketId, reservationId, paymentId, flightId, passengerName, passengerEmail,
                                 passengerPhone, passportNumber, seatNumber);
      match built
      case Throw(e) =>
        r := Throw(e);
      case Return(identity) =>
        IdentityRoundTrip(ticketId, reservationId, paymentId, flightId, passengerName, passengerEmail,
                          passengerPhone, passportNumber, seatNumber);
        var t := new TicketAggregate(identity, Pending, Some(now), "항공권 생성됨",
                                     [TicketCreated(ticketId, reservationId, flightId, passengerName, seatNumber)]);
        r := Return(t);
    }

    /** reconstruct: the same checks as create, then the stored status, issue
        time and message, and no pending events. */
    static method Reconstruct(ticketId: string, reservationId: string, paymentId: Option<string>, flightId: string,
                              passengerName: string, passengerEmail: string, passengerPhone: Option<string>,
                              passportNumber: Option<string>, seatNumber: string,
                              status: TicketStatus, issuedAt: Option<int>, message: string)
      returns (r: Try<TicketAggregate, IllegalArgument>)
      ensures var built := BuildIdentity(ticketId, reservationId, paymentId, flightId, passengerName, passengerEmail,
                                         passengerPhone, passportNumber, seatNumber);
              && (r.Throw? <==> built.Throw?)
              && (r.Throw? ==> r.exception == built.exception)
              && (r.Return? ==> && fresh(r.value) && r.value.Valid() && r.value.Identity() == built.value
                                && r.value.status == status && r.value.issuedAt == issuedAt
                                && r.value.message == message && r.value.domainEvents == [])
    {
      var built := BuildIdentity(ticketId, reservationId, paymentId, flightId, passengerName, passengerEmail,
                                 passengerPhone, passportNumber, seatNumber);
      match built
      case Throw(e) =>
        r := Throw(e);
      case Return(identity) =>
        IdentityRoundTrip(ticketId, reservationId, paymentId, flightId, passengerName, passengerEmail,
                          passengerPhone, passportNumber, seatNumber);
        var t := new TicketAggregate(identity, status, issuedAt, message, []);
        r := Return(t);
    }

    /** issue: only a pending ticket, which becomes ISSUED with one
        TicketIssued event; otherwise it throws and nothing changes. */
    method Issue(now: int) returns (r: Try<(), TicketError>)
      modifies this`status, this`message, this`issuedAt, this`domainEvents
      ensures r.Return? <==> Transition(old(status), TicketCommand.Issue).Some?
      ensures r.Throw? ==> && r.exception == TicketAlreadyIssued("Ticket " + ticketId + " is already issued with status: " + StatusName(old(status)))
                           && unchanged(this)
      ensures r.Return? ==> && status == Transition(old(status), TicketCommand.Issue).value
                            && message == "항공권 발급됨" && issuedAt == Some(now)
                            && domainEvents == old(domainEvents) + [TicketIssued(ticketId, reservationId, flightId, passenger.name, seatNumber.number)]
    {
      if status != Pending {
        return Throw(TicketAlreadyIssued("Ticket " + ticketId + " is already issued with status: " + StatusName(status)));
      }
      status := Issued;
      message := "항공권 발급됨";
      issuedAt := Some(now);
      domainEvents := domainEvents + [TicketIssued(ticketId, reservationId, flightId, passenger.name, seatNumber.number)];
      r := Return(());
    }

    /** cancel: only an issued ticket, which becomes CANCELLED with one
        TicketCancelled event; otherwise it throws and nothing changes. */
    method Cancel() returns (r: Try<(), TicketError>)
      modifies this`status, this`message, this`domainEvents
      ensures r.Return? <==> Transition(old(status), TicketCommand.Cancel).Some?
      ensures r.Throw? ==> && r.exception == InvalidTicketOperation("Only issued tickets can be cancelled. Current status: " + StatusName(old(status)))
                           && unchanged(this)
      ensures r.Return? ==> && status == Transition(old(status), TicketCommand.Cancel).value && message == "항공권 취소됨"
                            && domainEvents == old(domainEvents) + [TicketCancelled(ticketId, reservationId, flightId, seatNumber.number)]
    {
      if status != Issued {
        return Throw(InvalidTicketOperation("Only issued tickets can be cancelled. Current status: " + StatusName(status)));
      }
      status := Cancelled;
      message := "항공권 취소됨";
      domainEvents := domainEvents + [TicketCancelled(ticketId, reservationId, flightId, seatNumber.number)];
      r := Return(());
    }

    /** changeSeat: only an issued ticket, and only to a seat number of
        accepts; the status stays ISSUED, the seat is the normalised one and
        one SeatChanged event records the old seat and the new one as given.
        A refused change throws and changes nothing. */
    method ChangeSeat(newSeatNumber: string) returns (r: Try<(), TicketError>)
      requires Valid()
      modifies this`seatNumber, this`message, this`domainEvents
      ensures Valid()
      ensures old(status) != Issued ==> && r == Throw(InvalidTicketOperation(NotIssuedMessage(old(status))))
                                        && unchanged(this)
      ensures old(status) == Issued && SeatNumbers.Of(newSeatNumber).Throw?
              ==> r == Throw(InvalidArgument(SeatNumbers.Of(newSeatNumber).exception)) && unchanged(this)
      ensures r.Return? <==> Transition(old(status), TicketCommand.ChangeSeat).Some? && SeatNumbers.Of(newSeatNumber).Return?
      ensures r.Return? ==> && Return(seatNumber) == SeatNumbers.Of(newSeatNumber)
                            && message == SeatChangedMessage(old(seatNumber.number), newSeatNumber)
                            && domainEvents == old(domainEvents) + [SeatChanged(ticketId, flightId, old(seatNumber.number), newSeatNumber)]
    {
      if status != Issued {
        return Throw(InvalidTicketOperation(NotIssuedMessage(status)));
      }
      var seat := SeatNumbers.Of(newSeatNumber);
      if seat.Throw? {
        return Throw(InvalidArgument(seat.exception));
      }
      OfIdempotent(newSeatNumber);
      MoveToSeat(seat.value, newSeatNumber);
      r := Return(());
    }

    /** The accepted half of changeSeat: the new seat replaces the old one and
        the change is recorded. */
    method MoveToSeat(seat: SeatNumber, given: string)
      requires Valid() && SeatNumbers.Valid(seat)
      modifies this`seatNumber, this`message, this`domainEvents
      ensures Valid() && seatNumber == seat
      ensures message == SeatChangedMessage(old(seatNumber.number), given)
      ensures domainEvents == old(domainEvents) + [SeatChanged(ticketId, flightId, old(seatNumber.number), given)]
    {
      ghost var before := Identity();
      NormalWithSeat(before, seat);
      var oldSeatNumber := seatNumber.number;
      seatNumber := seat;
      assert Identity() == before.(seatNumber := seat);
      message := SeatChangedMessage(oldSeatNumber, given);
      domainEvents := domainEvents + [SeatChanged(ticketId, flightId, oldSeatNumber, given)];
    }

    /** canBeCancelled: exactly when cancel would be accepted. */
    predicate CanBeCancelled()
      reads this
      ensures CanBeCancelled() <==> Transition(status, TicketCommand.Cancel).Some?
    {
      status == Issued
    }

    /** isIssued: the active status, a final one from which issue is refused. */
    predicate IsIssued()
      reads this
      ensures IsIssued() <==> IsActiveStatus(status)
      ensures IsIssued() ==> IsFinalStatus(status) && Transition(status, TicketCommand.Issue).None?
    {
      status == Issued
    }

    /** isCancelled: a final status from which every operation is refused. */
    predicate IsCancelled()
      reads this
      ensures IsCancelled() <==> Transition(status, TicketCommand.Issue).None? && Transition(status, TicketCommand.Cancel).None?
      ensures IsCancelled() ==> IsFinalStatus(status) && forall c :: Transition(status, c).None?
    {
      status == Cancelled
    }

    /** canChangeSeat: exactly when changeSeat would be accepted. */
    predicate CanChangeSeat()
      reads this
      ensures CanChangeSeat() <==> Transition(status, TicketCommand.ChangeSeat).Some?
    {
      status == Issued
    }

    /** clearDomainEvents */
    method ClearDomainEvents()
      modifies this`domainEvents
      ensures domainEvents == []
    {
      domainEvents := [];
    }
  }

  /** canBeCancelled and canChangeSeat hold together, exactly when cancel
      and changeSeat are not refused for the status. */
  lemma GuardsAgree(t: TicketAggregate)
    ensures t.CanBeCancelled() <==> t.CanChangeSeat()
    ensures t.CanBeCancelled() <==> Transition(t.status, TicketCommand.Cancel).Some?
    ensures t.CanChangeSeat() <==> Transition(t.status, TicketCommand.ChangeSeat).Some?
    ensures t.CanBeCancelled() <==> IsActiveStatus(t.status)
  {
  }

  /** The life of a ticket: issuing a pending ticket and then cancelling it
      leaves it CANCELLED with exactly those two events added. */
  method IssueThenCancel(t: TicketAggregate, now: int)
    requires t.status == Pending
    modifies t
    ensures t.status == Cancelled && t.message == "항공권 취소됨" && t.issuedAt == Some(now)
    ensures t.domainEvents == old(t.domainEvents)
                              + [TicketIssued(t.ticketId, t.reservationId, t.flightId, t.passenger.name, t.seatNumber.number),
                                 TicketCancelled(t.ticketId, t.reservationId, t.flightId, t.seatNumber.number)]
  {
    var issued := t.Issue(now);
    var cancelled := t.Cancel();
  }
}
