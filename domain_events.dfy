/** The reservation domain events, the Kafka topic of each, and the
    in-memory event store that keeps one list of events per aggregate id. */
module DomainEvents {
  import opened Optional
  import opened Money

  /** The eight kinds of event and what each carries besides the common fields. */
  datatype EventPayload =
    | ReservationInitiated(flightId: string, passengerName: string, passengerEmail: string)
    | SeatsReserved(flightId: string, seatsCount: int)
    | PaymentProcessed(paymentId: string, amount: Decimal, paymentMethod: string)
    | TicketIssued(ticketId: string, seatNumber: string, flightId: string)
    | ReservationCompleted(totalAmount: Decimal, completionDuration: int)
    | ReservationFailed(reason: string, failureStage: string)
    | ReservationCancelled(cancellationReason: string, refundAmount: Option<Decimal>)
    | CompensationExecuted(compensationType: string, success: bool, details: string)

  /** A domain event: the aggregate it belongs to, its (generated) id, its
      version and its payload; the timestamp is not modelled. */
  datatype DomainEvent = DomainEvent(aggregateId: string, eventId: string, version: int, payload: EventPayload)

  /** How every event is built: no variant overrides the version, so it is 1. */
  function NewEvent(aggregateId: string, eventId: string, payload: EventPayload): (e: DomainEvent)
    ensures e.version == 1 && e.aggregateId == aggregateId && e.payload == payload
  {
    DomainEvent(aggregateId, eventId, 1, payload)
  }

  /** getKafkaTopic */
  function KafkaTopic(e: DomainEvent): string {
    match e.payload
    case ReservationInitiated(_, _, _) => "domain.reservation.initiated"
    case SeatsReserved(_, _) => "domain.seats.reserved"
    case PaymentProcessed(_, _, _) => "domain.payment.processed"
    case TicketIssued(_, _, _) => "domain.ticket.issued"
    case ReservationCompleted(_, _) => "domain.reservation.completed"
    case ReservationFailed(_, _) => "domain.reservation.failed"
    case ReservationCancelled(_, _) => "domain.reservation.cancelled"
    case CompensationExecuted(_, _, _) => "domain.compensation.executed"
  }

  /** The variant of a payload, as a number from 0 to 7. */
  function Kind(p: EventPayload): (k: nat)
    ensures k < 8
  {
    match p
    case ReservationInitiated(_, _, _) => 0
    case SeatsReserved(_, _) => 1
    case PaymentProcessed(_, _, _) => 2
    case TicketIssued(_, _, _) => 3
    case ReservationCompleted(_, _) => 4
    case ReservationFailed(_, _) => 5
    case ReservationCancelled(_, _) => 6
    case CompensationExecuted(_, _, _) => 7
  }

  /** Kind tells the variants apart: two payloads get the same number
      exactly when they are built by the same constructor. */
  lemma KindInjective(p: EventPayload, q: EventPayload)
    ensures Kind(p) == Kind(q) <==>
              || (p.ReservationInitiated? && q.ReservationInitiated?)
              || (p.SeatsReserved? && q.SeatsReserved?)
              || (p.PaymentProcessed? && q.PaymentProcessed?)
              || (p.TicketIssued? && q.TicketIssued?)
              || (p.ReservationCompleted? && q.ReservationCompleted?)
              || (p.ReservationFailed? && q.ReservationFailed?)
              || (p.ReservationCancelled? && q.ReservationCancelled?)
              || (p.CompensationExecuted? && q.CompensationExecuted?)
  {
  }

  /** Two events share a topic exactly when they are of the same variant: the
      eight variants go to eight distinct topics. */
  lemma TopicsDistinct(a: DomainEvent, b: DomainEvent)
    ensures KafkaTopic(a) == KafkaTopic(b) <==> Kind(a.payload) == Kind(b.payload)
  {
    var ta, tb := KafkaTopic(a), KafkaTopic(b);
    if Kind(a.payload) != Kind(b.payload) {
      // every topic starts "domain." and the characters after it tell them apart
      assert ta[7..] != tb[7..] by {
        assert ta[7] != tb[7] || ta[13] != tb[13] || ta[20] != tb[20] || |ta| != |tb|;
      }
    }
  }

  /** The events of a list whose version is above v, in their order. */
  function After(s: seq<DomainEvent>, v: int): (r: seq<DomainEvent>)
    ensures |r| <= |s|
    ensures forall e :: e in r <==> e in s && e.version > v
    ensures forall e :: multiset(r)[e] == if e.version > v then multiset(s)[e] else 0
  {
    if s == [] then []
    else
      assert s == [s[0]] + s[1..];
      (if s[0].version > v then [s[0]] else []) + After(s[1..], v)
  }

  /** On one event the filter keeps it exactly when its version is above v;
      with AfterAppend this fixes After on every list. */
  lemma AfterSingleton(e: DomainEvent, v: int)
    ensures After([e], v) == if e.version > v then [e] else []
  {
    assert [e][1..] == [];
  }

  /** Filtering distributes over concatenation, so it keeps the order. */
  lemma {:induction false} AfterAppend(s: seq<DomainEvent>, t: seq<DomainEvent>, v: int)
    ensures After(s + t, v) == After(s, v) + After(t, v)
  {
    if s == [] {
      assert s + t == t;
    } else {
      assert (s + t)[1..] == s[1..] + t;
      AfterAppend(s[1..], t, v);
    }
  }

  /** Since every event has version 1, getEventsAfter(id, v) returns all the
      aggregate's events when v is below 1 and none otherwise. */
  lemma {:induction false} AfterAllOrNothing(s: seq<DomainEvent>, v: int)
    requires forall k :: 0 <= k < |s| ==> s[k].version == 1
    ensures After(s, v) == if v < 1 then s else []
  {
    if s != [] {
      AfterAllOrNothing(s[1..], v);
    }
  }

  class InMemoryEventStore {
    var events: map<string, seq<DomainEvent>>

    /** Every list holds only events of its own aggregate. */
    ghost predicate Valid()
      reads this
    {
      forall id | id in events :: forall k :: 0 <= k < |events[id]| ==> events[id][k].aggregateId == id
    }

    constructor ()
      ensures Valid() && events == map[]
    {
      events := map[];
    }

    /** The events stored for an aggregate id, empty if there are none. */
    function Stored(id: string): (s: seq<DomainEvent>)
      reads this
      ensures id !in events ==> s == []
    {
      if id in events then events[id] else []
    }

    /** saveEvent: appends to the list of the event's aggregate, creating it
        when absent; no other list changes. */
    method SaveEvent(e: DomainEvent)
      requires Valid()
      modifies this
      ensures Valid()
      ensures Stored(e.aggregateId) == old(Stored(e.aggregateId)) + [e]
      ensures forall id :: id != e.aggregateId ==> Stored(id) == old(Stored(id))
      ensures events.Keys == old(events.Keys) + {e.aggregateId}
    {
      var list := if e.aggregateId in events then events[e.aggregateId] else [];
      events := events[e.aggregateId := list + [e]];
    }

    method GetEvents(id: string) returns (s: seq<DomainEvent>)
      ensures s == Stored(id)
      ensures id !in events ==> s == []
    {
      s := if id in events then events[id] else [];
    }

    /** getEventsAfter: exactly the stored events with a version above v, in order. */
    method GetEventsAfter(id: string, v: int) returns (s: seq<DomainEvent>)
      ensures s == After(Stored(id), v)
      ensures forall e :: e in s <==> e in Stored(id) && e.version > v
    {
      var list := if id in events then events[id] else [];
      s := After(list, v);
    }
  }
}
