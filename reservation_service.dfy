/** The reservation application service: the reservation saga performed against
    the reservation repository, each operation proved to return, call and
    save exactly what the saga functions describe. */
module ReservationApplication {
  import opened Optional
  import opened Text
  import opened DomainResult
  import opened ReservationDomain
  import opened ReservationPersistence
  import opened ReservationSaga

  /** The reservation service: the saga run against the repository. */
  class ReservationService {
    const repository: ReservationRepository

    ghost predicate Valid()
      reads this, repository
    {
      repository.Valid()
    }

    constructor (repository: ReservationRepository)
      requires repository.Valid()
      ensures Valid() && this.repository == repository
    {
      this.repository := repository;
    }

    /** saveAndPublishReservation against the repository. */
    method SaveAndPublishReservation(reservation: ReservationAggregate, ad: Adapters)
      returns (r: Result<ReservationResponse>, calls: seq<AdapterCall>)
      requires Valid()
      modifies repository
      ensures Valid()
      ensures r == SaveAndPublish(reservation, ad).result && calls == SaveAndPublish(reservation, ad).calls
      ensures repository.reservations == ApplySaves(old(repository.reservations), SaveAndPublish(reservation, ad).saves)
    {
      var saved := repository.Save(ConfirmedEntity(reservation));
      ApplyOneSave(old(repository.reservations), saved);
      calls := [CompletedEvent(reservation)];
      r := RunCatching(if ad.publish.Throws? then Throws(ad.publish.exception) else Returns(ToResponse(saved)));
    }

    /** handleReservationFailure against the repository. */
    method HandleFailure(reservation: ReservationAggregate, error: DomainError, ad: Adapters)
      returns (r: Result<ReservationResponse>, calls: seq<AdapterCall>)
      requires Valid()
      modifies repository
      ensures Valid()
      ensures r == HandleReservationFailure(reservation, error, ad).result
      ensures calls == HandleReservationFailure(reservation, error, ad).calls
      ensures repository.reservations
              == ApplySaves(old(repository.reservations), HandleReservationFailure(reservation, error, ad).saves)
    {
      var compensation := ExecuteCompensation(CompensationFor(reservation.flightId, reservation.paymentId,
                                                              reservation.ticketId), ad);
      calls := compensation.calls;
      if compensation.result.Success? {
        var saved := repository.Save(FailedEntity(reservation, error.message));
        ApplyOneSave(old(repository.reservations), saved);
        r := Success(ToResponse(saved));
      } else {
        r := Failure(compensation.result.error);
      }
    }

    /** processReservationWorkflow against the repository. */
    method ProcessWorkflow(reservation: ReservationAggregate, request: ReservationRequest, ad: Adapters)
      returns (r: Result<ReservationResponse>, calls: seq<AdapterCall>)
      requires Valid()
      modifies repository
      ensures Valid()
      ensures r == ProcessReservationWorkflow(reservation, request, ad).result
      ensures calls == ProcessReservationWorkflow(reservation, request, ad).calls
      ensures repository.reservations
              == ApplySaves(old(repository.reservations), ProcessReservationWorkflow(reservation, request, ad).saves)
    {
      var steps := BookingSteps(reservation, request, ad);
      var chain: Result<ReservationResponse>;
      var chainCalls: seq<AdapterCall>;
      if steps.result.Success? {
        chain, chainCalls := SaveAndPublishReservation(steps.result.data.0, ad);
        chainCalls := steps.calls + chainCalls;
      } else {
        chain, chainCalls := Failure(steps.result.error), steps.calls;
      }
      ghost var chainRun := MainChain(reservation, request, ad);
      assert chain == chainRun.result && chainCalls == chainRun.calls;
      ghost var afterChain := repository.reservations;
      assert afterChain == ApplySaves(old(repository.reservations), chainRun.saves) by {
        if steps.result.Failure? {
          assert chainRun.saves == [];
        }
      }
      if chain.Failure? {
        var recovered, recoveryCalls := HandleFailure(reservation, chain.error, ad);
        r, calls := recovered, chainCalls + recoveryCalls;
        ApplySavesAppend(old(repository.reservations), chainRun.saves,
                         HandleReservationFailure(reservation, chain.error, ad).saves);
      } else {
        r, calls := chain, chainCalls;
      }
    }

    /** createReservation, with the generated reservation id and the adapters'
        outcomes as inputs: it returns what CreateWorkflow returns, makes the
        calls it lists and leaves the repository with its saves applied. */
    method CreateReservation(request: ReservationRequest, newId: string, ad: Adapters)
      returns (r: Result<ReservationResponse>, calls: seq<AdapterCall>)
      requires Valid()
      modifies repository
      ensures Valid()
      ensures r == CreateWorkflow(request, newId, ad).result
      ensures calls == CreateWorkflow(request, newId, ad).calls
      ensures repository.reservations == ApplySaves(old(repository.reservations), CreateWorkflow(request, newId, ad).saves)
    {
      var passenger := NewPassengerInfo(request.passengerName, request.passengerEmail, request.passengerPhone,
                                        request.passportNumber);
      if passenger.Throws? {
        r, calls := CreateReservationFallback(passenger.exception), [];
        return;
      }
      var created := Create(request.flightId, passenger.value, request.paymentMethod, newId);
      if created.Failure? {
        r, calls := Failure(created.error), [];
        return;
      }
      r, calls := ProcessWorkflow(created.data, request, ad);
    }

    /** getReservationById */
    method GetReservationById(id: string) returns (r: Result<ReservationResponse>)
      ensures r == GetById(repository.reservations, id)
    {
      if IsBlank(id) {
        r := RunCatching(Throws(Throwable(IllegalArgument, Some("Reservation ID cannot be blank"), None)));
        return;
      }
      var found := repository.FindById(id);
      r := RunCatching(if found.Some? then Returns(ToResponse(found.value))
                       else Throws(Throwable(NoSuchElement, Some("Reservation not found: " + id), None)));
    }

    /** cancelReservation, with the adapters' outcomes as inputs. */
    method CancelReservation(id: string, ad: Adapters) returns (r: Result<ReservationResponse>, calls: seq<AdapterCall>)
      requires Valid()
      modifies repository
      ensures Valid()
      ensures r == CancelWorkflow(old(repository.reservations), id, ad).result
      ensures calls == CancelWorkflow(old(repository.reservations), id, ad).calls
      ensures repository.reservations == ApplySaves(old(repository.reservations), CancelWorkflow(old(repository.reservations), id, ad).saves)
    {
      var got := GetReservationById(id);
      if got.Failure? {
        r, calls := Failure(got.error), [];
        return;
      }
      var response := got.data;
      if response.status != Confirmed {
        r, calls := Failure(ValidationError("Only confirmed reservations can be cancelled")), [];
        return;
      }
      var compensation := ExecuteCompensation(CompensationFor(response.flightId, response.paymentId, response.ticketId), ad);
      calls := compensation.calls;
      if compensation.result.Failure? {
        r := Failure(compensation.result.error);
        return;
      }
      // the entity was found a moment ago and nothing removed it, so `!!` holds
      var entity := repository.FindById(response.reservationId);
      var saved := repository.Save(entity.value.(status := Cancelled, message := "예약 취소됨"));
      ApplyOneSave(old(repository.reservations), saved);
      r := Success(ToResponse(saved));
    }
  }
}
