/** The reservation service's Result type: Success(data) or Failure(error)
    over a closed family of domain errors, with map, flatMap, getOrNull,
    getOrThrow and runCatching. Code that may throw is modelled by its
    Outcome: the value it returns or the exception it throws. */
module DomainResult {
  import opened Optional

  datatype ExceptionKind =
    | IllegalArgument
    | IllegalState
    | NoSuchElement
    | NullPointer
    | Runtime
    | Other(className: string)

  /** A JVM exception: its class, getMessage() (which may be null) and cause. */
  datatype Throwable = Throwable(kind: ExceptionKind, message: Option<string>, cause: Option<Throwable>)

  /** What a Kotlin string template prints for a nullable message. */
  function MessageText(m: Option<string>): (t: string)
    ensures m.Some? ==> t == m.value
    ensures m.None? ==> t == "null"
  {
    OrElse(m, "null")
  }

  /** The result of running code that may throw. */
  datatype Outcome<T> = Returns(value: T) | Throws(exception: Throwable)

  datatype DomainError =
    | FlightNotFound(flightId: string, message: string)
    | NoAvailableSeats(flightId: string, message: string)
    | PaymentDeclined(message: string, cause: Option<Throwable>)
    | TicketIssuanceFailed(message: string, cause: Option<Throwable>)
    | ValidationError(message: string)
    | SystemError(message: string, cause: Option<Throwable>)

  /** FlightNotFound(flightId) with its default message. */
  function FlightNotFoundOf(flightId: string): (e: DomainError)
    ensures e.FlightNotFound? && e.flightId == flightId
  {
    FlightNotFound(flightId, "Flight not found: " + flightId)
  }

  /** NoAvailableSeats(flightId) with its default message. */
  function NoAvailableSeatsOf(flightId: string): (e: DomainError)
    ensures e.NoAvailableSeats? && e.flightId == flightId
  {
    NoAvailableSeats(flightId, "No available seats for flight: " + flightId)
  }

  /** DomainError.cause: null for the variants that carry none. */
  function CauseOf(e: DomainError): (c: Option<Throwable>)
    ensures (e.FlightNotFound? || e.NoAvailableSeats? || e.ValidationError?) ==> c.None?
  {
    match e
    case PaymentDeclined(_, c) => c
    case TicketIssuanceFailed(_, c) => c
    case SystemError(_, c) => c
    case _ => None
  }

  /** DomainError.toException: an IllegalArgumentException for a validation
      error and a RuntimeException otherwise, with the error's message and
      cause. */
  function ToException(e: DomainError): (x: Throwable)
    ensures x.kind == (if e.ValidationError? then IllegalArgument else Runtime)
    ensures x.message == Some(e.message)
    ensures x.cause == CauseOf(e)
  {
    match e
    case FlightNotFound(_, m) => Throwable(Runtime, Some(m), None)
    case NoAvailableSeats(_, m) => Throwable(Runtime, Some(m), None)
    case PaymentDeclined(m, c) => Throwable(Runtime, Some(m), c)
    case TicketIssuanceFailed(m, c) => Throwable(Runtime, Some(m), c)
    case ValidationError(m) => Throwable(IllegalArgument, Some(m), None)
    case SystemError(m, c) => Throwable(Runtime, Some(m), c)
  }

  datatype Result<T> = Success(data: T) | Failure(error: DomainError)

  function GetOrNull<T>(r: Result<T>): (o: Option<T>)
    ensures o.Some? <==> r.Success?
    ensures r.Success? ==> o.value == r.data
  {
    match r
    case Success(d) => Some(d)
    case Failure(_) => None
  }

  /** getOrThrow: the data, or the error's exception thrown. */
  function GetOrThrow<T>(r: Result<T>): (o: Outcome<T>)
    ensures o.Returns? <==> r.Success?
    ensures r.Success? ==> o.value == r.data
    ensures r.Failure? ==> o.exception == ToException(r.error)
  {
    match r
    case Success(d) => Returns(d)
    case Failure(e) => Throws(ToException(e))
  }

  function Map<T, R>(r: Result<T>, f: T -> R): (m: Result<R>)
    ensures m.Success? <==> r.Success?
    ensures r.Success? ==> m.data == f(r.data)
    ensures r.Failure? ==> m.error == r.error
  {
    match r
    case Success(d) => Success(f(d))
    case Failure(e) => Failure(e)
  }

  function FlatMap<T, R>(r: Result<T>, f: T -> Result<R>): (m: Result<R>)
    ensures r.Success? ==> m == f(r.data)
    ensures r.Failure? ==> m == Failure(r.error)
  {
    match r
    case Success(d) => f(d)
    case Failure(e) => Failure(e)
  }

  /** The message runCatching gives the SystemError for a caught exception. */
  function UnexpectedError(x: Throwable): (e: DomainError)
    ensures e.SystemError? && e.cause == Some(x)
    ensures "Unexpected error: " <= e.message
  {
    var message := "Unexpected error: " + MessageText(x.message);
    assert message[..18] == "Unexpected error: ";
    SystemError(message, Some(x))
  }

  /** Result.runCatching: the block's value as Success, and any exception it
      throws as Failure(SystemError("Unexpected error: <message>", cause)); it
      never throws itself. */
  function RunCatching<T>(block: Outcome<T>): (r: Result<T>)
    ensures r.Success? <==> block.Returns?
    ensures block.Returns? ==> r.data == block.value
    ensures block.Throws? ==> r.error.SystemError? && r.error.cause == Some(block.exception)
                              && r.error.message == "Unexpected error: " + MessageText(block.exception.message)
  {
    match block
    case Returns(v) => Success(v)
    case Throws(x) => Failure(UnexpectedError(x))
  }

  /** Mapping with the identity changes nothing, and mapping twice is mapping
      once with the composition. */
  lemma MapIdentity<T>(r: Result<T>)
    ensures Map(r, (x: T) => x) == r
  {
  }

  lemma MapCompose<T, U, V>(r: Result<T>, f: T -> U, g: U -> V)
    ensures Map(Map(r, f), g) == Map(r, (x: T) => g(f(x)))
  {
  }

  /** map is flatMap followed by wrapping in Success. */
  lemma MapIsFlatMap<T, R>(r: Result<T>, f: T -> R)
    ensures Map(r, f) == FlatMap(r, (x: T) => Success(f(x)))
  {
  }

  /** flatMap is associative, and Success is its unit on both sides. */
  lemma FlatMapAssociative<T, U, V>(r: Result<T>, f: T -> Result<U>, g: U -> Result<V>)
    ensures FlatMap(FlatMap(r, f), g) == FlatMap(r, (x: T) => FlatMap(f(x), g))
  {
  }

  lemma FlatMapUnit<T, R>(d: T, f: T -> Result<R>, r: Result<T>)
    ensures FlatMap(Success(d), f) == f(d)
    ensures FlatMap(r, (x: T) => Success(x)) == r
  {
  }

  /** Throwing a Result's error and catching it again keeps a Success and
      turns any Failure into a SystemError that carries the error's message
      and has the thrown exception as its cause. */
  lemma RunCatchingGetOrThrow<T>(r: Result<T>)
    ensures r.Success? ==> RunCatching(GetOrThrow(r)) == r
    ensures r.Failure? ==> RunCatching(GetOrThrow(r))
                           == Failure(SystemError("Unexpected error: " + r.error.message, Some(ToException(r.error))))
  {
  }

  /** getOrNull and getOrThrow agree on every Result. */
  lemma GetOrNullAgrees<T>(r: Result<T>)
    ensures GetOrNull(r).Some? <==> GetOrThrow(r).Returns?
    ensures GetOrNull(r).Some? ==> GetOrNull(r).value == GetOrThrow(r).value
  {
  }
}
