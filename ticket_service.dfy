/** The ticket application service: issuing a ticket for a paid reservation
    with a requested or generated seat, looking it up, and cancelling it as a
    compensation step. Tickets are stored as entities in a map keyed by
    ticket id, and the Kafka messages sent are kept as an outbox. The random
    UUID, row and column and the clock are parameters. */
module TicketApplication {
  import opened Optional
  import opened Exceptions
  import opened Text
  import opened Messaging
  import opened TicketMapping
  import SeatNumbers
  import Tickets

  datatype SeatAssignmentConfig = SeatAssignmentConfig(maxRows: int, columns: seq<string>)

  datatype IdGenerationConfig = IdGenerationConfig(prefix: string, uuidLength: nat)

  datatype TicketConfig = TicketConfig(seatAssignment: SeatAssignmentConfig, idGeneration: IdGenerationConfig)

  /** The configuration's defaults: rows 1 to 30, columns A to F, ids
      "TKT-" followed by eight characters of a UUID. */
  const DefaultConfig := TicketConfig(SeatAssignmentConfig(30, ["A", "B", "C", "D", "E", "F"]),
                                      IdGenerationConfig("TKT-", 8))

  /** Kotlin's String.take(n). */
  function Take(s: string, n: nat): (r: string)
    ensures |r| == if n < |s| then n else |s|
    ensures r == s[..|r|]
  {
    if n < |s| then s[..n] else s
  }

  /** generateTicketId: the prefix, then the first uuidLength characters of
      the UUID. */
  function GenerateTicketId(config: IdGenerationConfig, uuid: string): (id: string)
    ensures |config.prefix| <= |id| <= |config.prefix| + config.uuidLength
    ensures id[..|config.prefix|] == config.prefix
    ensures id[|config.prefix|..] == Take(uuid, config.uuidLength)
  {
    config.prefix + Take(uuid, config.uuidLength)
  }

  /** A UUID's first characters are all kept when it is long enough. */
  lemma DefaultTicketIdLength(uuid: string)
    requires |uuid| >= 8
    ensures |GenerateTicketId(DefaultConfig.idGeneration, uuid)| == 12
  {
  }

  /** generateSeatNumber: the row in decimal followed by the column. */
  function GenerateSeatNumber(row: nat, column: string): (seat: string)
    ensures |seat| == |NatToString(row)| + |column|
    ensures seat[|NatToString(row)|..] == column
  {
    NatToString(row) + column
  }

  /** Whether a drawn row and column are ones generateSeatNumber can pick:
      a row in 1..maxRows and a column from the list. */
  predicate CanDraw(config: SeatAssignmentConfig, row: nat, column: string) {
    1 <= row <= config.maxRows && column in config.columns
  }

  /** assignSeatNumber: the requested seat when there is one, the drawn one
      otherwise. */
  function AssignSeatNumber(request: TicketRequest, row: nat, column: string): (seat: string)
    ensures request.seatNumber.Some? ==> seat == request.seatNumber.value
    ensures request.seatNumber.None? ==> seat == GenerateSeatNumber(row, column)
  {
    OrElse(request.seatNumber, GenerateSeatNumber(row, column))
  }

  /** A row of at most three digits and a column letter A-F make a seat
      number that SeatNumber.of accepts unchanged, whose row number and letter
      are the ones drawn. */
  lemma GeneratedSeatValid(row: nat, column: string)
    requires 1 <= row <= 999 && |column| == 1 && SeatNumbers.IsColumnLetter(column[0])
    ensures var seat := GenerateSeatNumber(row, column);
            && SeatNumbers.Of(seat) == Return(SeatNumbers.SeatNumber(seat))
            && SeatNumbers.RowNumber(SeatNumbers.SeatNumber(seat)) == row
            && SeatNumbers.SeatLetter(SeatNumbers.SeatNumber(seat)) == column[0]
  {
    var seat := GenerateSeatNumber(row, column);
    GeneratedSeatMatches(row, column);
    SeatNumbers.OfFixedPoints(SeatNumbers.SeatNumber(seat));
  }

  /** The generated seat matches the pattern, and its digits read back as
      the row. */
  lemma GeneratedSeatMatches(row: nat, column: string)
    requires 1 <= row <= 999 && |column| == 1 && SeatNumbers.IsColumnLetter(column[0])
    ensures var seat := GenerateSeatNumber(row, column);
            && SeatNumbers.MatchesSeatPattern(seat)
            && DigitsValue(seat[..|seat| - 1]) == row
  {
    var digits := NatToString(row);
    var seat := GenerateSeatNumber(row, column);
    assert Pow10(3) == 1000 by {
      assert Pow10(1) == 10 && Pow10(2) == 100;
    }
    NatToStringRoundTrip(row, 3);
    assert seat[..|seat| - 1] == digits;
    assert seat[|seat| - 1] == column[0];
    assert forall k :: 0 <= k < |seat| - 1 ==> seat[k] == digits[k];
  }

  /** With the default configuration every seat the service can generate is
      a valid seat number. */
  lemma DefaultSeatsValid(row: nat, column: string)
    requires CanDraw(DefaultConfig.seatAssignment, row, column)
    ensures SeatNumbers.Of(GenerateSeatNumber(row, column)) == Return(SeatNumbers.SeatNumber(GenerateSeatNumber(row, column)))
  {
    assert |column| == 1 && SeatNumbers.IsColumnLetter(column[0]);
    GeneratedSeatValid(row, column);
  }

  /** canCancelTicket: the ticket exists and is ISSUED. */
  predicate CanCancel(ticket: Option<TicketEntity>) {
    ticket.Some? && ticket.value.status == Issued
  }

  const CancelledMessage := "항공권 취소됨"

  /** What processCancellation makes of a ticket. */
  function CancelledEntity(ticket: TicketEntity): (c: TicketEntity)
    ensures c.status == EntityStatus.Cancelled && c.message == CancelledMessage
    ensures c == ticket.(status := c.status, message := c.message)
  {
    ticket.(status := EntityStatus.Cancelled, message := CancelledMessage)
  }

  /** The message sent to "ticket.issued"; it ends with the reservation id. */
  function IssuedNotice(reservationId: string): (m: KafkaMessage)
    ensures m.topic == "ticket.issued"
    ensures |m.payload| > |reservationId| && m.payload[|m.payload| - |reservationId|..] == reservationId
  {
    KafkaMessage("ticket.issued", "Ticket issued for reservation: " + reservationId)
  }

  /** The message sent to "ticket.cancelled"; it ends with the ticket id. */
  function CancelledNotice(ticketId: string): (m: KafkaMessage)
    ensures m.topic == "ticket.cancelled"
    ensures |m.payload| > |ticketId| && m.payload[|m.payload| - |ticketId|..] == ticketId
  {
    KafkaMessage("ticket.cancelled", "Ticket cancelled: " + ticketId)
  }

  class TicketService {
    const config: TicketConfig
    var tickets: map<string, TicketEntity>
    var published: seq<KafkaMessage>

    /** The repository keys every ticket by its own id. */
    predicate Valid()
      reads this`tickets
    {
      forall k | k in tickets :: tickets[k].ticketId == k
    }

    function Lookup(ticketId: string): (t: Option<TicketEntity>)
      reads this`tickets
      ensures t.Some? <==> ticketId in tickets
      ensures t.Some? ==> t.value == tickets[ticketId]
    {
      if ticketId in tickets then Some(tickets[ticketId]) else None
    }

    constructor (config: TicketConfig, tickets: map<string, TicketEntity>)
      requires forall k | k in tickets :: tickets[k].ticketId == k
      ensures Valid() && this.config == config && this.tickets == tickets && published == []
    {
      this.config := config;
      this.tickets := tickets;
      published := [];
    }

    /** issueTicket: a new id, the requested or a drawn seat, an ISSUED
        entity saved under the new id and one ticket.issued message. Nothing
        checks the requested seat number. */
    method IssueTicket(request: TicketRequest, uuid: string, row: nat, column: string, now: int)
      returns (r: TicketResponse)
      requires Valid()
      requires request.seatNumber.None? ==> CanDraw(config.seatAssignment, row, column)
      modifies this`tickets, this`published
      ensures Valid()
      ensures var ticketId := GenerateTicketId(config.idGeneration, uuid);
              var e := EntityOfRequest(request, ticketId, AssignSeatNumber(request, row, column), now);
              && tickets == old(tickets)[ticketId := e]
              && published == old(published) + [IssuedNotice(request.reservationId)]
              && r == ResponseOf(e)
    {
      var ticketId := GenerateTicketId(config.idGeneration, uuid);
      var seatNumber := AssignSeatNumber(request, row, column);
      var ticket := EntityOfRequest(request, ticketId, seatNumber, now);
      tickets := tickets[ticket.ticketId := ticket];
      published := published + [IssuedNotice(request.reservationId)];
      r := ResponseOf(ticket);
    }

    /** getTicketById */
    method GetTicketById(ticketId: string) returns (r: Option<TicketResponse>)
      ensures r.Some? <==> ticketId in tickets
      ensures r.Some? ==> r.value == ResponseOf(tickets[ticketId])
    {
      if ticketId in tickets {
        r := Some(ResponseOf(tickets[ticketId]));
      } else {
        r := None;
      }
    }

    /** cancelTicket: a missing or not ISSUED ticket gives null and nothing
        changes; an ISSUED one is saved CANCELLED and a ticket.cancelled
        message is sent. */
    method CancelTicket(ticketId: string) returns (r: Option<TicketResponse>)
      requires Valid()
      modifies this`tickets, this`published
      ensures Valid()
      ensures r.Some? <==> CanCancel(old(Lookup(ticketId)))
      ensures !CanCancel(old(Lookup(ticketId))) ==> tickets == old(tickets) && published == old(published)
      ensures CanCancel(old(Lookup(ticketId))) ==>
                var c := CancelledEntity(old(tickets)[ticketId]);
                && tickets == old(tickets)[ticketId := c]
                && published == old(published) + [CancelledNotice(ticketId)]
                && r == Some(ResponseOf(c))
    {
      var ticket := Lookup(ticketId);
      if !CanCancel(ticket) {
        return None;
      }
      var cancelled := CancelledEntity(ticket.value);
      tickets := tickets[cancelled.ticketId := cancelled];
      published := published + [CancelledNotice(ticketId)];
      r := Some(ResponseOf(cancelled));
    }
  }

  /** The service's cancel guard agrees with the aggregate's on every status
      the aggregate can store: cancelTicket goes ahead exactly when cancel()
      would. A USED ticket, which reads back as ISSUED, is still refused. */
  lemma CancelGuardsAgree(e: TicketEntity, s: Tickets.TicketStatus)
    ensures e.status == ToEntityStatus(s) ==>
              (CanCancel(Some(e)) <==> Tickets.Transition(s, Tickets.Cancel).Some?)
    ensures e.status == Used ==> !CanCancel(Some(e)) && ToDomainStatus(e.status) == Tickets.Issued
  {
  }

  /** A ticket just issued is stored ISSUED under its new id, so it can be
      cancelled, and cancelling it a second time gives null and changes
      nothing. */
  method IssueThenCancelTwice(s: TicketService, request: TicketRequest, uuid: string, row: nat, column: string, now: int)
    returns (first: Option<TicketResponse>, second: Option<TicketResponse>)
    requires s.Valid()
    requires request.seatNumber.None? ==> CanDraw(s.config.seatAssignment, row, column)
    modifies s
    ensures first.Some? && first.value.status == EntityStatus.Cancelled
    ensures first.value.ticketId == GenerateTicketId(s.config.idGeneration, uuid)
    ensures second.None?
  {
    var issued := s.IssueTicket(request, uuid, row, column, now);
    var id := GenerateTicketId(s.config.idGeneration, uuid);
    first := s.CancelTicket(id);
    second := s.CancelTicket(id);
  }
}
