/** The flight aggregate root: its seat inventory, price and update time
    change in place, and each change appends a domain event to a log that
    pullDomainEvents drains. Route, schedule, airline and aircraft are not
    modelled; times are supplied by the caller. */
module Flights {
  import opened Optional
  import opened Exceptions
  import opened Money
  import opened SeatInventories

  datatype FlightEvent =
    | SeatsReserved(aggregateId: string, reservedSeats: int32, remainingSeats: int32)
    | SeatsReleased(aggregateId: string, releasedSeats: int32, availableSeats: int32)
    | PriceChanged(aggregateId: string, oldPrice: Decimal, newPrice: Decimal)

  /** What the aggregate's operations throw. */
  datatype FlightError =
    | InvalidFlightOperation(message: string)
    | InsufficientSeats(requested: int32, available: int32)
    | Inventory(error: SeatError)

  class FlightAggregate {
    var flightId: string
    var price: Decimal
    var seatInventory: SeatInventory
    var updatedAt: Option<int>
    var domainEvents: seq<FlightEvent>

    ghost predicate Valid()
      reads this
    {
      SeatInventories.Valid(seatInventory) && Less(Zero, price)
    }

    /** reconstruct, from a persisted flight whose values already passed the
        value objects' checks; it starts with no pending events. */
    constructor (flightId: string, price: Decimal, seatInventory: SeatInventory, updatedAt: Option<int>)
      requires SeatInventories.Valid(seatInventory) && Less(Zero, price)
      ensures Valid()
      ensures this.flightId == flightId && this.price == price && this.seatInventory == seatInventory
      ensures this.updatedAt == updatedAt && domainEvents == []
    {
      this.flightId := flightId;
      this.price := price;
      this.seatInventory := seatInventory;
      this.updatedAt := updatedAt;
      domainEvents := [];
    }

    /** isAvailable is the inventory's canReserve. */
    predicate IsAvailable(requestedSeats: int)
      reads this
      ensures requestedSeats <= 0 ==> !IsAvailable(requestedSeats)
      ensures -0x8000_0000 <= requestedSeats < 0x8000_0000 ==>
                (IsAvailable(requestedSeats) <==> Reserve(seatInventory, requestedSeats as int32).Return?)
    {
      CanReserve(seatInventory, requestedSeats)
    }

    /** reserveSeats: a count of zero or less, or more than is available,
        throws and changes nothing; otherwise the inventory is replaced by the
        reserved one and one SeatsReserved event with the new count is logged. */
    method ReserveSeats(seatCount: int32, now: int) returns (r: Try<(), FlightError>)
      requires Valid()
      modifies this
      ensures Valid() && flightId == old(flightId) && price == old(price)
      ensures seatCount <= 0 ==> r == Throw(InvalidFlightOperation("예약 좌석 수는 0보다 커야 합니다"))
      ensures seatCount > 0 && !old(IsAvailable(seatCount))
              ==> r == Throw(InsufficientSeats(seatCount, old(seatInventory.availableSeats)))
      ensures r.Throw? ==> seatInventory == old(seatInventory) && domainEvents == old(domainEvents)
                           && updatedAt == old(updatedAt)
      ensures r.Return? <==> old(IsAvailable(seatCount))
      ensures r.Return? ==> && Return(seatInventory) == Reserve(old(seatInventory), seatCount)
                            && domainEvents == old(domainEvents) + [SeatsReserved(flightId, seatCount, seatInventory.availableSeats)]
                            && updatedAt == Some(now)
    {
      if seatCount <= 0 {
        return Throw(InvalidFlightOperation("예약 좌석 수는 0보다 커야 합니다"));
      }
      if !CanReserve(seatInventory, seatCount) {
        return Throw(InsufficientSeats(seatCount, seatInventory.availableSeats));
      }
      seatInventory := Reserve(seatInventory, seatCount).value;
      updatedAt := Some(now);
      domainEvents := domainEvents + [SeatsReserved(flightId, seatCount, seatInventory.availableSeats)];
      r := Return(());
    }

    /** releaseSeats: a count of zero or less throws; a release that would
        exceed the total throws the inventory's IllegalStateException; in
        both cases nothing changes. Otherwise the inventory is replaced and one
        SeatsReleased event with the new count is logged. */
    method ReleaseSeats(seatCount: int32, now: int) returns (r: Try<(), FlightError>)
      requires Valid()
      modifies this
      ensures Valid() && flightId == old(flightId) && price == old(price)
      ensures seatCount <= 0 ==> r == Throw(InvalidFlightOperation("해제 좌석 수는 0보다 커야 합니다"))
      ensures seatCount > 0 && old(seatInventory.availableSeats) + seatCount > old(seatInventory.totalSeats)
              ==> r == Throw(Inventory(WouldExceedTotal(seatCount, old(seatInventory.totalSeats))))
      ensures r.Throw? ==> seatInventory == old(seatInventory) && domainEvents == old(domainEvents)
                           && updatedAt == old(updatedAt)
      ensures r.Return? <==> seatCount > 0 && old(seatInventory.availableSeats) + seatCount <= old(seatInventory.totalSeats)
      ensures r.Return? ==> && Return(seatInventory) == Release(old(seatInventory), seatCount)
                            && domainEvents == old(domainEvents) + [SeatsReleased(flightId, seatCount, seatInventory.availableSeats)]
                            && updatedAt == Some(now)
    {
      if seatCount <= 0 {
        return Throw(InvalidFlightOperation("해제 좌석 수는 0보다 커야 합니다"));
      }
      var released := Release(seatInventory, seatCount);
      if released.Throw? {
        return Throw(Inventory(released.exception));
      }
      seatInventory := released.value;
      updatedAt := Some(now);
      domainEvents := domainEvents + [SeatsReleased(flightId, seatCount, seatInventory.availableSeats)];
      r := Return(());
    }

    /** changePrice: a missing or non-positive price throws and changes
        nothing; otherwise the price is replaced and PriceChanged(old, new) is
        logged. */
    method ChangePrice(newPrice: Option<Decimal>, now: int) returns (r: Try<(), FlightError>)
      requires Valid()
      modifies this
      ensures Valid() && flightId == old(flightId) && seatInventory == old(seatInventory)
      ensures r.Return? <==> newPrice.Some? && Less(Zero, newPrice.value)
      ensures r.Throw? ==> r.exception == InvalidFlightOperation("가격은 0보다 커야 합니다")
                           && price == old(price) && domainEvents == old(domainEvents) && updatedAt == old(updatedAt)
      ensures r.Return? ==> price == newPrice.value && updatedAt == Some(now)
                            && domainEvents == old(domainEvents) + [PriceChanged(flightId, old(price), newPrice.value)]
    {
      if newPrice.None? || LessEq(newPrice.value, Zero) {
        return Throw(InvalidFlightOperation("가격은 0보다 커야 합니다"));
      }
      var oldPrice := price;
      price := newPrice.value;
      updatedAt := Some(now);
      domainEvents := domainEvents + [PriceChanged(flightId, oldPrice, newPrice.value)];
      r := Return(());
    }

    /** pullDomainEvents: the pending events, in order, leaving the log empty. */
    method PullDomainEvents() returns (events: seq<FlightEvent>)
      modifies this`domainEvents
      ensures events == old(domainEvents) && domainEvents == []
    {
      events := domainEvents;
      domainEvents := [];
    }
  }

  /** Reserving and then releasing the same number of seats on the aggregate
      brings its inventory back, with one event of each kind logged. */
  method ReserveThenReleaseRestores(flight: FlightAggregate, n: int32, now: int)
    requires flight.Valid() && flight.IsAvailable(n)
    modifies flight
    ensures flight.seatInventory == old(flight.seatInventory)
    ensures flight.domainEvents == old(flight.domainEvents)
            + [SeatsReserved(flight.flightId, n, old(flight.seatInventory.availableSeats) - n),
               SeatsReleased(flight.flightId, n, old(flight.seatInventory.availableSeats))]
  {
    var reserved := flight.ReserveSeats(n, now);
    var released := flight.ReleaseSeats(n, now);
  }
}
