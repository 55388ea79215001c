/** The flight application service: it validates a request, loads the flight
    aggregate from the repository (keyed by the trimmed flight id), asks it to
    reserve or release seats, and saves it back. The repository is a map of
    persisted flights; loading one builds a fresh aggregate with no pending
    events. */
module FlightApplication {
  import opened Optional
  import opened Exceptions
  import opened Money
  import opened Text
  import opened SeatInventories
  import opened Flights

  /** A persisted flight: the fields the seat operations read and write. */
  datatype FlightRecord = FlightRecord(flightId: string, price: Decimal, inventory: SeatInventory)

  datatype AvailabilityRequest = AvailabilityRequest(flightId: Option<string>, requestedSeats: Option<int32>)

  datatype AvailabilityResponse =
    AvailabilityResponse(available: bool, flightId: string, availableSeats: int32, message: string)

  /** What the service throws: its own exceptions, and a domain exception it
      does not catch, which passes through unchanged. */
  datatype FlightServiceError =
    | InvalidRequest(message: string)
    | FlightNotFound(flightId: string)
    | InsufficientSeats(flightId: string, requestedSeats: int32, availableSeats: int32)
    | Uncaught(error: FlightError)

  /** Every stored flight is filed under its own id and passed the value
      objects' checks when it was built. */
  predicate FlightsValid(flights: map<string, FlightRecord>) {
    forall key | key in flights ::
      flights[key].flightId == key && SeatInventories.Valid(flights[key].inventory) && Less(Zero, flights[key].price)
  }

  /** validateFlightId: a null id, or one that is empty once trimmed, is refused. */
  function ValidateFlightId(flightId: Option<string>): (e: Option<FlightServiceError>)
    ensures e.None? <==> flightId.Some? && !IsJavaBlank(flightId.value)
    ensures e.Some? ==> e.value == InvalidRequest("Flight ID cannot be null or empty")
  {
    if flightId.None? || IsJavaBlank(flightId.value) then Some(InvalidRequest("Flight ID cannot be null or empty"))
    else None
  }

  /** validateSeatCount: a null or non-positive count is refused. */
  function ValidateSeatCount(seats: Option<int32>): (e: Option<FlightServiceError>)
    ensures e.None? <==> seats.Some? && seats.value > 0
    ensures e.Some? ==> e.value == InvalidRequest("Seat count must be greater than 0")
  {
    if seats.None? || seats.value <= 0 then Some(InvalidRequest("Seat count must be greater than 0"))
    else None
  }

  /** validateReservationParameters and validateReleaseParameters: the id is
      checked first, then the count. */
  function ValidateSeatRequest(flightId: Option<string>, seats: Option<int32>): (e: Option<FlightServiceError>)
    ensures e.None? <==> flightId.Some? && !IsJavaBlank(flightId.value) && seats.Some? && seats.value > 0
    ensures ValidateFlightId(flightId).Some? ==> e == ValidateFlightId(flightId)
    ensures ValidateFlightId(flightId).None? ==> e == ValidateSeatCount(seats)
  {
    if ValidateFlightId(flightId).Some? then ValidateFlightId(flightId) else ValidateSeatCount(seats)
  }

  /** validateAvailabilityRequest: a null request, then a blank id, then a
      null or non-positive seat count. */
  function ValidateAvailabilityRequest(request: Option<AvailabilityRequest>): (e: Option<FlightServiceError>)
    ensures e.None? <==> && request.Some?
                         && request.value.flightId.Some? && !IsJavaBlank(request.value.flightId.value)
                         && request.value.requestedSeats.Some? && request.value.requestedSeats.value > 0
    ensures request.None? ==> e == Some(InvalidRequest("Availability request cannot be null"))
    ensures request.Some? && ValidateFlightId(request.value.flightId).Some?
            ==> e == Some(InvalidRequest("Flight ID cannot be null or empty"))
    ensures request.Some? && ValidateFlightId(request.value.flightId).None?
            && (request.value.requestedSeats.None? || request.value.requestedSeats.value <= 0)
            ==> e == Some(InvalidRequest("Requested seats must be greater than 0"))
  {
    if request.None? then Some(InvalidRequest("Availability request cannot be null"))
    else if ValidateFlightId(request.value.flightId).Some? then ValidateFlightId(request.value.flightId)
    else if request.value.requestedSeats.None? || request.value.requestedSeats.value <= 0
    then Some(InvalidRequest("Requested seats must be greater than 0"))
    else None
  }

  /** The catch blocks of reserveSeats: the domain's InsufficientSeats becomes
      the service's, carrying the raw id, the request and the seats left; an
      invalid operation becomes InvalidRequest; anything else passes through. */
  function ReserveFailure(e: FlightError, flightId: string, seats: int32, available: int32): (r: FlightServiceError)
    ensures e.InsufficientSeats? <==> r.InsufficientSeats?
    ensures e.InsufficientSeats? ==> r == FlightServiceError.InsufficientSeats(flightId, seats, available)
    ensures e.InvalidFlightOperation? <==> r.InvalidRequest?
    ensures e.InvalidFlightOperation? ==> r.message == e.message
    ensures e.Inventory? <==> r == Uncaught(e)
  {
    match e
    case InsufficientSeats(_, _) => FlightServiceError.InsufficientSeats(flightId, seats, available)
    case InvalidFlightOperation(m) => InvalidRequest(m)
    case Inventory(_) => Uncaught(e)
  }

  /** The catch block of releaseSeats only catches InvalidFlightOperation. */
  function ReleaseFailure(e: FlightError): (r: FlightServiceError)
    ensures e.InvalidFlightOperation? <==> r.InvalidRequest?
    ensures e.InvalidFlightOperation? ==> r.message == e.message
    ensures !e.InvalidFlightOperation? ==> r == Uncaught(e)
  {
    if e.InvalidFlightOperation? then InvalidRequest(e.message) else Uncaught(e)
  }

  /** What reserveSeats does to the stored flights: the error it throws, or
      the flight record it saves. */
  function ReserveSeatsOutcome(flights: map<string, FlightRecord>, flightId: Option<string>, seats: Option<int32>)
    : (r: Try<FlightRecord, FlightServiceError>)
    requires FlightsValid(flights)
    ensures ValidateSeatRequest(flightId, seats).Some? ==> r == Throw(ValidateSeatRequest(flightId, seats).value)
    ensures r.Return? <==> && ValidateSeatRequest(flightId, seats).None?
                           && JavaTrim(flightId.value) in flights
                           && CanReserve(flights[JavaTrim(flightId.value)].inventory, seats.value)
    ensures ValidateSeatRequest(flightId, seats).None? && JavaTrim(flightId.value) !in flights
            ==> r == Throw(FlightNotFound(flightId.value))
    ensures ValidateSeatRequest(flightId, seats).None? && JavaTrim(flightId.value) in flights
            && !CanReserve(flights[JavaTrim(flightId.value)].inventory, seats.value)
            ==> r == Throw(FlightServiceError.InsufficientSeats(flightId.value, seats.value, flights[JavaTrim(flightId.value)].inventory.availableSeats))
    ensures r.Return? ==> var old_ := flights[JavaTrim(flightId.value)];
                          && r.value == old_.(inventory := r.value.inventory)
                          && SeatInventories.Valid(r.value.inventory)
                          && r.value.inventory.totalSeats == old_.inventory.totalSeats
                          && r.value.inventory.availableSeats == old_.inventory.availableSeats - seats.value
  {
    if ValidateSeatRequest(flightId, seats).Some? then Throw(ValidateSeatRequest(flightId, seats).value)
    else
      var key := JavaTrim(flightId.value);
      if key !in flights then Throw(FlightNotFound(flightId.value))
      else
        var flight := flights[key];
        var reserved := Reserve(flight.inventory, seats.value);
        if reserved.Throw? then Throw(FlightServiceError.InsufficientSeats(flightId.value, seats.value, flight.inventory.availableSeats))
        else Return(flight.(inventory := reserved.value))
  }

  /** What releaseSeats does to the stored flights. */
  function ReleaseSeatsOutcome(flights: map<string, FlightRecord>, flightId: Option<string>, seats: Option<int32>)
    : (r: Try<FlightRecord, FlightServiceError>)
    requires FlightsValid(flights)
    ensures ValidateSeatRequest(flightId, seats).Some? ==> r == Throw(ValidateSeatRequest(flightId, seats).value)
    ensures r.Return? <==> && ValidateSeatRequest(flightId, seats).None?
                           && JavaTrim(flightId.value) in flights
                           && var inv := flights[JavaTrim(flightId.value)].inventory;
                              inv.availableSeats + seats.value <= inv.totalSeats
    ensures ValidateSeatRequest(flightId, seats).None? && JavaTrim(flightId.value) !in flights
            ==> r == Throw(FlightNotFound(flightId.value))
    ensures ValidateSeatRequest(flightId, seats).None? && JavaTrim(flightId.value) in flights && r.Throw?
            ==> r.exception == Uncaught(Inventory(WouldExceedTotal(seats.value, flights[JavaTrim(flightId.value)].inventory.totalSeats)))
    ensures r.Return? ==> var old_ := flights[JavaTrim(flightId.value)];
                          && r.value == old_.(inventory := r.value.inventory)
                          && SeatInventories.Valid(r.value.inventory)
                          && r.value.inventory.totalSeats == old_.inventory.totalSeats
                          && r.value.inventory.availableSeats == old_.inventory.availableSeats + seats.value
  {
    if ValidateSeatRequest(flightId, seats).Some? then Throw(ValidateSeatRequest(flightId, seats).value)
    else
      var key := JavaTrim(flightId.value);
      if key !in flights then Throw(FlightNotFound(flightId.value))
      else
        var flight := flights[key];
        var released := Release(flight.inventory, seats.value);
        if released.Throw? then Throw(Uncaught(Inventory(released.exception)))
        else Return(flight.(inventory := released.value))
  }

  /** Reserving seats through the service and then releasing as many leaves
      every stored flight's seats as they were. */
  lemma ServiceReserveThenRelease(flights: map<string, FlightRecord>, flightId: Option<string>, seats: Option<int32>)
    requires FlightsValid(flights) && ReserveSeatsOutcome(flights, flightId, seats).Return?
    ensures var saved := ReserveSeatsOutcome(flights, flightId, seats).value;
            var after := flights[saved.flightId := saved];
            && FlightsValid(after)
            && ReleaseSeatsOutcome(after, flightId, seats).Return?
            && var restored := after[saved.flightId := ReleaseSeatsOutcome(after, flightId, seats).value];
               forall key | key in flights :: key in restored && restored[key].inventory == flights[key].inventory
  {
    var saved := ReserveSeatsOutcome(flights, flightId, seats).value;
    var key := JavaTrim(flightId.value);
    assert saved.flightId == key;
    ReserveThenRelease(flights[key].inventory, seats.value);
  }

  class FlightService {
    var flights: map<string, FlightRecord>

    ghost predicate Valid()
      reads this
    {
      FlightsValid(flights)
    }

    constructor (flights: map<string, FlightRecord>)
      requires FlightsValid(flights)
      ensures Valid() && this.flights == flights
    {
      this.flights := flights;
    }

    /** findById: a fresh aggregate rebuilt from the stored record. */
    method Load(key: string) returns (flight: FlightAggregate)
      requires Valid() && key in flights
      ensures fresh(flight) && flight.Valid() && flight.domainEvents == []
      ensures flight.flightId == key && flight.price == flights[key].price
      ensures flight.seatInventory == flights[key].inventory
      ensures flight.updatedAt.None?
    {
      var record := flights[key];
      flight := new FlightAggregate(record.flightId, record.price, record.inventory, None);
    }

    /** save: the aggregate's fields written back under its id. */
    method Save(flight: FlightAggregate)
      requires Valid() && flight.Valid()
      modifies this
      ensures Valid()
      ensures flights == old(flights)[flight.flightId :=
                FlightRecord(flight.flightId, flight.price, flight.seatInventory)]
    {
      flights := flights[flight.flightId := FlightRecord(flight.flightId, flight.price, flight.seatInventory)];
    }

    /** checkAvailability: after validation, an unknown flight is an error;
        otherwise the answer is the aggregate's isAvailable together with
        the seats left. Nothing is stored. */
    method CheckAvailability(request: Option<AvailabilityRequest>) returns (r: Try<AvailabilityResponse, FlightServiceError>)
      requires Valid()
      ensures ValidateAvailabilityRequest(request).Some? ==> r == Throw(ValidateAvailabilityRequest(request).value)
      ensures ValidateAvailabilityRequest(request).None? ==>
                var id := request.value.flightId.value;
                && (JavaTrim(id) !in flights ==> r == Throw(FlightNotFound(id)))
                && (JavaTrim(id) in flights ==>
                      var inventory := flights[JavaTrim(id)].inventory;
                      && r.Return?
                      && (r.value.available <==> CanReserve(inventory, request.value.requestedSeats.value))
                      && r.value.flightId == id
                      && r.value.availableSeats == inventory.availableSeats
                      && r.value.message == if r.value.available then "Seats available" else "Not enough seats available")
    {
      var invalid := ValidateAvailabilityRequest(request);
      if invalid.Some? {
        return Throw(invalid.value);
      }
      var id := request.value.flightId.value;
      var key := JavaTrim(id);
      if key !in flights {
        return Throw(FlightNotFound(id));
      }
      var flight := Load(key);
      var available := flight.IsAvailable(request.value.requestedSeats.value);
      var message := if available then "Seats available" else "Not enough seats available";
      r := Return(AvailabilityResponse(available, id, flight.seatInventory.availableSeats, message));
    }

    /** reserveSeats: on success the flight is saved with the reserved
        inventory; on any error nothing is stored. */
    method ReserveSeats(flightId: Option<string>, seats: Option<int32>, now: int) returns (r: Try<(), FlightServiceError>)
      requires Valid()
      modifies this
      ensures Valid()
      ensures match ReserveSeatsOutcome(old(flights), flightId, seats)
              case Return(saved) => r == Return(()) && flights == old(flights)[saved.flightId := saved]
              case Throw(e) => r == Throw(e) && flights == old(flights)
    {
      var invalid := ValidateSeatRequest(flightId, seats);
      if invalid.Some? {
        return Throw(invalid.value);
      }
      var key := JavaTrim(flightId.value);
      if key !in flights {
        return Throw(FlightNotFound(flightId.value));
      }
      var flight := Load(key);
      var outcome := flight.ReserveSeats(seats.value, now);
      if outcome.Throw? {
        return Throw(ReserveFailure(outcome.exception, flightId.value, seats.value, flight.seatInventory.availableSeats));
      }
      Save(flight);
      r := Return(());
    }

    /** releaseSeats: on success the flight is saved with the released
        inventory; on any error nothing is stored. */
    method ReleaseSeats(flightId: Option<string>, seats: Option<int32>, now: int) returns (r: Try<(), FlightServiceError>)
      requires Valid()
      modifies this
      ensures Valid()
      ensures match ReleaseSeatsOutcome(old(flights), flightId, seats)
              case Return(saved) => r == Return(()) && flights == old(flights)[saved.flightId := saved]
              case Throw(e) => r == Throw(e) && flights == old(flights)
    {
      var invalid := ValidateSeatRequest(flightId, seats);
      if invalid.Some? {
        return Throw(invalid.value);
      }
      var key := JavaTrim(flightId.value);
      if key !in flights {
        return Throw(FlightNotFound(flightId.value));
      }
      ghost var stored := flights[key];
      var flight := Load(key);
      var outcome := flight.ReleaseSeats(seats.value, now);
      if outcome.Throw? {
        return Throw(ReleaseFailure(outcome.exception));
      }
      assert Return(flight.seatInventory) == Release(stored.inventory, seats.value);
      Save(flight);
      assert ReleaseSeatsOutcome(old(flights), flightId, seats)
             == Return(FlightRecord(key, stored.price, flight.seatInventory));
      r := Return(());
    }
  }
}
