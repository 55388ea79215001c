/** The flight's seat inventory: an immutable value of total and available
    seats (Java ints) whose reserve and release return new inventories. */
module SeatInventories {
  import opened Exceptions

  datatype SeatInventory = SeatInventory(totalSeats: int32, availableSeats: int32)

  /** The exceptions the inventory throws; the first three and
      ReleaseNotPositive are IllegalArgumentExceptions, the others
      IllegalStateExceptions. The formatted messages are kept as their numbers. */
  datatype SeatError =
    | TotalNotPositive
    | AvailableNegative
    | AvailableExceedsTotal
    | CannotReserve(requested: int32, available: int32)
    | ReleaseNotPositive
    | WouldExceedTotal(requested: int32, total: int32)

  predicate IsIllegalState(e: SeatError) {
    e.CannotReserve? || e.WouldExceedTotal?
  }

  /** What every inventory built through create or reconstruct satisfies. */
  predicate Valid(inv: SeatInventory) {
    inv.totalSeats > 0 && 0 <= inv.availableSeats <= inv.totalSeats
  }

  function Create(totalSeats: int32): (r: Try<SeatInventory, SeatError>)
    ensures r.Return? <==> totalSeats > 0
    ensures r.Return? ==> r.value.totalSeats == totalSeats && r.value.availableSeats == totalSeats && Valid(r.value)
    ensures r.Throw? ==> r.exception == TotalNotPositive
  {
    if totalSeats <= 0 then Throw(TotalNotPositive)
    else Return(SeatInventory(totalSeats, totalSeats))
  }

  function Reconstruct(totalSeats: int32, availableSeats: int32): (r: Try<SeatInventory, SeatError>)
    ensures r.Return? <==> Valid(SeatInventory(totalSeats, availableSeats))
    ensures r.Return? ==> r.value == SeatInventory(totalSeats, availableSeats)
    ensures totalSeats <= 0 ==> r == Throw(TotalNotPositive)
    ensures totalSeats > 0 && availableSeats < 0 ==> r == Throw(AvailableNegative)
    ensures totalSeats > 0 && availableSeats > totalSeats ==> r == Throw(AvailableExceedsTotal)
  {
    if totalSeats <= 0 then Throw(TotalNotPositive)
    else if availableSeats < 0 then Throw(AvailableNegative)
    else if availableSeats > totalSeats then Throw(AvailableExceedsTotal)
    else Return(SeatInventory(totalSeats, availableSeats))
  }

  predicate CanReserve(inv: SeatInventory, requestedSeats: int) {
    inv.availableSeats >= requestedSeats && requestedSeats > 0
  }

  function Reserve(inv: SeatInventory, seatCount: int32): (r: Try<SeatInventory, SeatError>)
    ensures r.Return? <==> CanReserve(inv, seatCount)
    ensures r.Return? ==> r.value.totalSeats == inv.totalSeats
                          && r.value.availableSeats == inv.availableSeats - seatCount
    ensures r.Throw? ==> r.exception == CannotReserve(seatCount, inv.availableSeats)
  {
    if !CanReserve(inv, seatCount) then Throw(CannotReserve(seatCount, inv.availableSeats))
    else Return(SeatInventory(inv.totalSeats, inv.availableSeats - seatCount))
  }

  /** release, as the code evidently intends: the new count is compared with
      the total without overflow. */
  function Release(inv: SeatInventory, seatCount: int32): (r: Try<SeatInventory, SeatError>)
    requires Valid(inv)
    ensures r.Return? <==> seatCount > 0 && inv.availableSeats + seatCount <= inv.totalSeats
    ensures r.Return? ==> r.value.totalSeats == inv.totalSeats
                          && r.value.availableSeats == inv.availableSeats + seatCount
    ensures seatCount <= 0 ==> r == Throw(ReleaseNotPositive)
    ensures seatCount > 0 && r.Throw? ==> r.exception == WouldExceedTotal(seatCount, inv.totalSeats)
  {
    if seatCount <= 0 then Throw(ReleaseNotPositive)
    else if inv.availableSeats as int + seatCount as int > inv.totalSeats as int
    then Throw(WouldExceedTotal(seatCount, inv.totalSeats))
    else Return(SeatInventory(inv.totalSeats, inv.availableSeats + seatCount))
  }

  /** release as written: `availableSeats + seatCount` is a Java int sum and
      wraps around before it is compared with the total. */
  function ReleaseAsWritten(inv: SeatInventory, seatCount: int32): (r: Try<SeatInventory, SeatError>)
    ensures r.Return? ==> r.value.totalSeats == inv.totalSeats
                          && r.value.availableSeats == AddInt32(inv.availableSeats, seatCount)
  {
    if seatCount <= 0 then Throw(ReleaseNotPositive)
    else
      var newAvailableSeats := AddInt32(inv.availableSeats, seatCount);
      if newAvailableSeats > inv.totalSeats then Throw(WouldExceedTotal(seatCount, inv.totalSeats))
      else Return(SeatInventory(inv.totalSeats, newAvailableSeats))
  }

  /** Without overflow the code as written and the corrected release agree. */
  lemma ReleaseAgreesWithoutOverflow(inv: SeatInventory, seatCount: int32)
    requires Valid(inv) && inv.availableSeats as int + seatCount as int < 0x8000_0000
    ensures ReleaseAsWritten(inv, seatCount) == Release(inv, seatCount)
  {
  }

  /** The overflow: on a valid inventory of 100 seats with 10 available,
      releasing 2147483647 seats wraps the sum to -2147483639, which passes
      the check, and the result has a negative number of available seats. */
  lemma ReleaseAsWrittenOverflows()
    ensures var inv := SeatInventory(100, 10);
            && Valid(inv)
            && ReleaseAsWritten(inv, 0x7FFF_FFFF) == Return(SeatInventory(100, -2147483639))
            && !Valid(ReleaseAsWritten(inv, 0x7FFF_FFFF).value)
            && Release(inv, 0x7FFF_FFFF) == Throw(WouldExceedTotal(0x7FFF_FFFF, 100))
  {
  }

  /** Reserve and the corrected release keep an inventory valid. */
  lemma ReserveKeepsValid(inv: SeatInventory, seatCount: int32)
    requires Valid(inv) && Reserve(inv, seatCount).Return?
    ensures Valid(Reserve(inv, seatCount).value)
  {
  }

  lemma ReleaseKeepsValid(inv: SeatInventory, seatCount: int32)
    requires Valid(inv) && Release(inv, seatCount).Return?
    ensures Valid(Release(inv, seatCount).value)
  {
  }

  /** Reserving n seats and then releasing n gives back the same inventory,
      and so does releasing and then reserving. */
  lemma ReserveThenRelease(inv: SeatInventory, n: int32)
    requires Valid(inv) && CanReserve(inv, n)
    ensures Valid(Reserve(inv, n).value)
    ensures Release(Reserve(inv, n).value, n) == Return(inv)
  {
  }

  lemma ReleaseThenReserve(inv: SeatInventory, n: int32)
    requires Valid(inv) && Release(inv, n).Return?
    ensures Reserve(Release(inv, n).value, n) == Return(inv)
  {
  }
}
