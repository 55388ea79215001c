/** The ticket service's storage side: the entity and DTO status, which has
    two values the aggregate does not know, the conversions between the two
    status types, and the entity and response built for an issued ticket. */
module TicketMapping {
  import opened Optional
  import T = Tickets

  /** The DTO and entity TicketStatus. */
  datatype EntityStatus = Pending | Issued | Cancelled | Used | Expired

  /** convertToEntityStatus: each aggregate status to the entity status of
      the same name; USED and EXPIRED are never produced. */
  function ToEntityStatus(s: T.TicketStatus): (e: EntityStatus)
    ensures e != Used && e != Expired
    ensures e == Issued <==> s == T.Issued
  {
    match s
    case Pending => Pending
    case Issued => Issued
    case Cancelled => Cancelled
  }

  /** convertToDomainStatus: USED reads back as ISSUED and EXPIRED as
      CANCELLED. */
  function ToDomainStatus(e: EntityStatus): (s: T.TicketStatus)
    ensures e == Used ==> s == T.Issued
    ensures e == Expired ==> s == T.Cancelled
  {
    match e
    case Pending => T.Pending
    case Issued => T.Issued
    case Cancelled => T.Cancelled
    case Used => T.Issued
    case Expired => T.Cancelled
  }

  /** Reading back a stored aggregate status gives the status stored. */
  lemma DomainOfEntityStatus(s: T.TicketStatus)
    ensures ToDomainStatus(ToEntityStatus(s)) == s
  {
  }

  /** convertToEntityStatus is injective. */
  lemma EntityStatusInjective(a: T.TicketStatus, b: T.TicketStatus)
    ensures ToEntityStatus(a) == ToEntityStatus(b) ==> a == b
  {
    DomainOfEntityStatus(a);
    DomainOfEntityStatus(b);
  }

  /** An entity status survives a trip through the aggregate exactly when it
      is not one of the two the aggregate lacks. */
  lemma EntityStatusRoundTrip(e: EntityStatus)
    ensures ToEntityStatus(ToDomainStatus(e)) == e <==> e != Used && e != Expired
  {
  }

  /** The request's passenger, as the DTO carries it. */
  datatype PassengerDto = PassengerDto(name: string, email: string, phone: string, passportNumber: Option<string>)

  datatype TicketRequest = TicketRequest(
    reservationId: string, paymentId: string, flightId: string, passengerInfo: PassengerDto,
    seatNumber: Option<string>)

  /** The stored Ticket entity; issuedAt is a timestamp supplied by the caller. */
  datatype TicketEntity = TicketEntity(
    ticketId: string, status: EntityStatus, reservationId: string, paymentId: Option<string>, flightId: string,
    passengerName: Option<string>, passengerEmail: Option<string>, passengerPhone: Option<string>,
    passportNumber: Option<string>, seatNumber: string, issuedAt: int, message: string)

  datatype TicketResponse = TicketResponse(
    ticketId: string, status: EntityStatus, reservationId: string, paymentId: string, flightId: string,
    passengerInfo: PassengerDto, seatNumber: string, issuedAt: Option<int>, message: string)

  const IssuedMessage := "Ticket issued successfully"

  /** toEntity(request, ticketId, seatNumber): a new ticket is ISSUED at once,
      under the given id and seat, with the request's ids and passenger. */
  function EntityOfRequest(request: TicketRequest, ticketId: string, seatNumber: string, now: int): (e: TicketEntity)
    ensures e.ticketId == ticketId && e.seatNumber == seatNumber && e.status == Issued
    ensures e.issuedAt == now && e.message == IssuedMessage
  {
    var p := request.passengerInfo;
    TicketEntity(ticketId, Issued, request.reservationId, Some(request.paymentId), request.flightId,
                 Some(p.name), Some(p.email), Some(p.phone), p.passportNumber, seatNumber, now, IssuedMessage)
  }

  /** toResponse(ticket): absent ids and passenger fields become "". */
  function ResponseOf(ticket: TicketEntity): (r: TicketResponse)
    ensures r.ticketId == ticket.ticketId && r.status == ticket.status && r.seatNumber == ticket.seatNumber
    ensures r.paymentId == OrElse(ticket.paymentId, "") && r.issuedAt == Some(ticket.issuedAt)
    ensures r.passengerInfo.passportNumber == ticket.passportNumber
  {
    TicketResponse(
      ticket.ticketId, ticket.status, ticket.reservationId, OrElse(ticket.paymentId, ""), ticket.flightId,
      PassengerDto(OrElse(ticket.passengerName, ""), OrElse(ticket.passengerEmail, ""),
                   OrElse(ticket.passengerPhone, ""), ticket.passportNumber),
      ticket.seatNumber, Some(ticket.issuedAt), ticket.message)
  }

  /** The response to an issued ticket hands back everything the request
      carried: its ids and its passenger exactly as sent. */
  lemma ResponseKeepsRequest(request: TicketRequest, ticketId: string, seatNumber: string, now: int)
    ensures var r := ResponseOf(EntityOfRequest(request, ticketId, seatNumber, now));
            && r.reservationId == request.reservationId && r.paymentId == request.paymentId
            && r.flightId == request.flightId && r.passengerInfo == request.passengerInfo
            && r.ticketId == ticketId && r.seatNumber == seatNumber && r.status == Issued
            && r.issuedAt == Some(now) && r.message == IssuedMessage
  {
  }
}
