/** The reservation entity, its mapping to the response the service returns,
    and the in-memory repository: a map from reservation id to entity. */
module ReservationPersistence {
  import opened Optional
  import opened Money
  import opened ReservationDomain

  /** The persisted reservation (the creation timestamp is not modelled). */
  datatype Reservation = Reservation(
    reservationId: string,
    status: ReservationStatus,
    flightId: string,
    passengerName: string,
    passengerEmail: string,
    passengerPhone: Option<string>,
    passportNumber: Option<string>,
    paymentId: Option<string>,
    ticketId: Option<string>,
    totalAmount: Decimal,
    seatNumber: Option<string>,
    message: string)

  datatype ResponsePassenger = ResponsePassenger(name: string, email: string, phone: string, passportNumber: Option<string>)

  datatype ReservationResponse = ReservationResponse(
    reservationId: string,
    status: ReservationStatus,
    flightId: string,
    passengerInfo: ResponsePassenger,
    paymentId: Option<string>,
    ticketId: Option<string>,
    totalAmount: Decimal,
    seatNumber: Option<string>,
    message: string)

  /** ReservationMapper.toEntity for the request the service rebuilds from an
      aggregate: a PENDING entity with nothing attached. */
  function ToEntity(a: ReservationAggregate): (e: Reservation)
    ensures e.reservationId == a.reservationId && e.flightId == a.flightId
    ensures e.passengerName == a.passenger.name && e.passengerEmail == a.passenger.email
    ensures e.passengerPhone == Some(a.passenger.phone) && e.passportNumber == a.passenger.passportNumber
    ensures e.status == Pending && e.paymentId.None? && e.ticketId.None? && e.seatNumber.None?
    ensures e.totalAmount == Zero && e.message == "Reservation initiated"
  {
    Reservation(a.reservationId, Pending, a.flightId, a.passenger.name, a.passenger.email,
                Some(a.passenger.phone), a.passenger.passportNumber, None, None, Zero, None,
                "Reservation initiated")
  }

  /** ReservationMapper.toResponse: a missing phone or passport number is
      reported as the empty string; every other field is copied. */
  function ToResponse(e: Reservation): (r: ReservationResponse)
    ensures r.reservationId == e.reservationId && r.status == e.status && r.flightId == e.flightId
    ensures r.paymentId == e.paymentId && r.ticketId == e.ticketId && r.totalAmount == e.totalAmount
    ensures r.seatNumber == e.seatNumber && r.message == e.message
    ensures r.passengerInfo.name == e.passengerName && r.passengerInfo.email == e.passengerEmail
    ensures r.passengerInfo.phone == OrElse(e.passengerPhone, "")
    ensures r.passengerInfo.passportNumber == Some(OrElse(e.passportNumber, ""))
  {
    ReservationResponse(e.reservationId, e.status, e.flightId,
                        ResponsePassenger(e.passengerName, e.passengerEmail, OrElse(e.passengerPhone, ""),
                                          Some(OrElse(e.passportNumber, ""))),
                        e.paymentId, e.ticketId, e.totalAmount, e.seatNumber, e.message)
  }

  /** The stored entities with a given status (findByStatus, as a set: the
      map's iteration order is not modelled). */
  function WithStatus(m: map<string, Reservation>, s: ReservationStatus): set<Reservation> {
    set id | id in m && m[id].status == s :: m[id]
  }

  class ReservationRepository {
    var reservations: map<string, Reservation>

    /** Every entity is stored under its own id. */
    ghost predicate Valid()
      reads this
    {
      forall id | id in reservations :: reservations[id].reservationId == id
    }

    constructor ()
      ensures Valid() && reservations == map[]
    {
      reservations := map[];
    }

    /** save: stores r under its id, replacing any entity already there. */
    method Save(r: Reservation) returns (saved: Reservation)
      requires Valid()
      modifies this
      ensures Valid()
      ensures saved == r
      ensures reservations == old(reservations)[r.reservationId := r]
    {
      reservations := reservations[r.reservationId := r];
      saved := r;
    }

    method FindById(id: string) returns (found: Option<Reservation>)
      ensures found.Some? <==> id in reservations
      ensures found.Some? ==> found.value == reservations[id]
    {
      found := if id in reservations then Some(reservations[id]) else None;
    }

    method FindAll() returns (all: set<Reservation>)
      ensures all == set id | id in reservations :: reservations[id]
    {
      all := set id | id in reservations :: reservations[id];
    }

    method FindByFlightId(flightId: string) returns (found: set<Reservation>)
      ensures forall r :: r in found <==> exists id :: id in reservations && reservations[id] == r && r.flightId == flightId
    {
      found := set id | id in reservations && reservations[id].flightId == flightId :: reservations[id];
    }

    method FindByPassengerEmail(email: string) returns (found: set<Reservation>)
      ensures forall r :: r in found <==> exists id :: id in reservations && reservations[id] == r && r.passengerEmail == email
    {
      found := set id | id in reservations && reservations[id].passengerEmail == email :: reservations[id];
    }

    /** findByStatus: exactly the stored reservations with that status. */
    method FindByStatus(s: ReservationStatus) returns (found: set<Reservation>)
      ensures forall r :: r in found <==> exists id :: id in reservations && reservations[id] == r && r.status == s
    {
      found := WithStatus(reservations, s);
    }

    method FindByPaymentId(paymentId: string) returns (found: set<Reservation>)
      ensures forall r :: r in found <==> exists id :: id in reservations && reservations[id] == r && r.paymentId == Some(paymentId)
    {
      found := set id | id in reservations && reservations[id].paymentId == Some(paymentId) :: reservations[id];
    }

    method ExistsById(id: string) returns (b: bool)
      ensures b <==> id in reservations
    {
      b := id in reservations;
    }

    method DeleteById(id: string)
      requires Valid()
      modifies this
      ensures Valid()
      ensures id !in reservations
      ensures reservations == old(reservations) - {id}
    {
      reservations := reservations - {id};
    }

    /** count: the number of distinct ids stored. */
    method Count() returns (n: nat)
      ensures n == |reservations.Keys|
    {
      n := |reservations|;
    }

    method DeleteAll()
      modifies this
      ensures Valid()
      ensures reservations == map[]
    {
      reservations := map[];
    }
  }

  /** After save(r), findById(r's id) gives r, and every other id keeps its entity. */
  lemma SaveThenFind(m: map<string, Reservation>, r: Reservation, other: string)
    requires other != r.reservationId
    ensures var m' := m[r.reservationId := r];
            && r.reservationId in m' && m'[r.reservationId] == r
            && (other in m' <==> other in m) && (other in m ==> m'[other] == m[other])
  {
  }

  /** Saving an id that is already stored keeps the count; a new id adds one. */
  lemma SaveCount(m: map<string, Reservation>, r: Reservation)
    ensures r.reservationId in m ==> |m[r.reservationId := r]| == |m|
    ensures r.reservationId !in m ==> |m[r.reservationId := r]| == |m| + 1
  {
    var k := r.reservationId;
    if k in m {
      assert m[k := r].Keys == m.Keys;
    } else {
      assert m[k := r].Keys == m.Keys + {k};
    }
  }

  /** Deleting a stored id removes exactly one entry. */
  lemma DeleteCount(m: map<string, Reservation>, id: string)
    ensures id in m ==> |m - {id}| == |m| - 1
    ensures id !in m ==> |m - {id}| == |m|
  {
    if id in m {
      assert (m - {id}).Keys == m.Keys - {id};
    } else {
      assert (m - {id}).Keys == m.Keys;
    }
  }

  /** The status queries split the stored reservations: each stored entity is
      found under its own status and under no other. */
  lemma WithStatusPartition(m: map<string, Reservation>, id: string, s: ReservationStatus)
    requires id in m
    ensures m[id] in WithStatus(m, m[id].status)
    ensures s != m[id].status ==> m[id] !in WithStatus(m, s)
  {
  }
}
