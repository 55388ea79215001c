/** The identifier value objects (ReservationId, PaymentId, TicketId,
    FlightInfo): a blank value is refused with the object's own message,
    any other value is kept trimmed. */
module Identifiers {
  import opened Text
  import opened Exceptions

  function IdOf(value: string, blankMessage: string): (r: Try<string, IllegalArgument>)
    ensures r.Return? <==> !IsBlank(value)
    ensures r.Return? ==> r.value == Trim(value)
    ensures r.Throw? ==> r.exception == IllegalArgument(blankMessage)
  {
    if IsBlank(value) then Throw(IllegalArgument(blankMessage)) else Return(Trim(value))
  }

  /** What of keeps: a non-blank value with no surrounding whitespace. */
  predicate IsNormalId(value: string) {
    !IsBlank(value) && Trimmed(value)
  }

  /** An identifier read back from its stored form is the same identifier:
      what of returns is in normal form, and of returns a normal form as is. */
  lemma IdOfIdempotent(value: string, blankMessage: string)
    ensures IdOf(value, blankMessage).Return? ==> IsNormalId(IdOf(value, blankMessage).value)
    ensures IsNormalId(value) ==> IdOf(value, blankMessage) == Return(value)
  {
    TrimIsTrimmed(value);
    if IsNormalId(value) {
      TrimOfTrimmed(value);
    }
  }
}
