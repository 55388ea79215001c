/** The payment aggregate root: a payment whose status, message and
    processing time change in place as it is approved, rejected or
    cancelled, with a log of domain events. Times are supplied by the caller. */
module Payments {
  import opened Optional
  import opened Exceptions
  import opened Text
  import opened Money
  import opened PaymentAmounts
  import opened PaymentMethods
  import opened Identifiers

  datatype PaymentStatus = Pending | Success | Failed | Cancelled

  /** The enum constant's name, as string templates print it. */
  function StatusName(s: PaymentStatus): string {
    match s
    case Pending => "PENDING"
    case Success => "SUCCESS"
    case Failed => "FAILED"
    case Cancelled => "CANCELLED"
  }

  /** PaymentStatus.isFinalStatus */
  predicate IsFinalStatus(s: PaymentStatus) {
    s == Success || s == Failed || s == Cancelled
  }

  /** The three transitions and the status each one may start from. */
  datatype PaymentCommand = Approve | Reject(reason: string) | Cancel

  function Transition(s: PaymentStatus, c: PaymentCommand): (r: Option<PaymentStatus>)
    ensures r.Some? <==> (s == Pending && !c.Cancel?) || (s == Success && c.Cancel?)
    ensures c.Approve? && r.Some? ==> r.value == Success
    ensures c.Reject? && r.Some? ==> r.value == Failed
    ensures c.Cancel? && r.Some? ==> r.value == Cancelled
  {
    match c
    case Approve => if s == Pending then Some(Success) else None
    case Reject(_) => if s == Pending then Some(Failed) else None
    case Cancel => if s == Success then Some(Cancelled) else None
  }

  /** The status after a series of commands, a refused command (one that
      throws) leaving the status as it was. */
  function Apply(s: PaymentStatus, commands: seq<PaymentCommand>): PaymentStatus
    decreases |commands|
  {
    if commands == [] then s
    else
      var next := Transition(s, commands[0]);
      Apply(if next.Some? then next.value else s, commands[1..])
  }

  /** Once decided, a payment never becomes pending again. */
  lemma {:induction false} NeverPendingAgain(s: PaymentStatus, commands: seq<PaymentCommand>)
    requires s != Pending
    ensures Apply(s, commands) != Pending
    decreases |commands|
  {
    if commands != [] {
      var next := Transition(s, commands[0]);
      NeverPendingAgain(if next.Some? then next.value else s, commands[1..]);
    }
  }

  /** Failed and cancelled payments stay as they are, whatever follows. */
  lemma {:induction false} FailedAndCancelledAreTerminal(s: PaymentStatus, commands: seq<PaymentCommand>)
    requires s == Failed || s == Cancelled
    ensures Apply(s, commands) == s
    decreases |commands|
  {
    if commands != [] {
      FailedAndCancelledAreTerminal(s, commands[1..]);
    }
  }

  /** A payment that ends up cancelled was approved: starting from pending
      the result is cancelled only if some approval came first. */
  lemma {:induction false} CancelledOnlyAfterApproval(commands: seq<PaymentCommand>)
    requires Apply(Pending, commands) == Cancelled
    ensures exists k :: 0 <= k < |commands| && commands[k] == Approve
    decreases |commands|
  {
    if commands[0] == Approve {
    } else if commands[0].Reject? {
      FailedAndCancelledAreTerminal(Failed, commands[1..]);
    } else {
      CancelledOnlyAfterApproval(commands[1..]);
      var k :| 0 <= k < |commands[1..]| && commands[1..][k] == Approve;
      assert commands[k + 1] == Approve;
    }
  }

  /** A final status admits no approval or rejection; only a successful
      payment can still be cancelled. */
  lemma FinalStatusesRefuseDecisions(s: PaymentStatus, reason: string)
    requires IsFinalStatus(s)
    ensures Transition(s, Approve).None? && Transition(s, Reject(reason)).None?
    ensures Transition(s, Cancel).Some? <==> s == Success
  {
  }

  datatype CustomerInfo = CustomerInfo(name: string, email: string)

  /** CustomerInfo.of: a blank name, a blank e-mail or an e-mail that does not
      match the pattern is refused; the name is stored trimmed and the e-mail
      trimmed and lower-cased. */
  function CustomerInfoOf(name: string, email: string): (r: Try<CustomerInfo, IllegalArgument>)
    ensures r.Return? <==> !IsBlank(name) && !IsBlank(email) && MatchesEmailPattern(email)
    ensures IsBlank(name) ==> r == Throw(IllegalArgument("Customer name cannot be blank"))
    ensures !IsBlank(name) && IsBlank(email) ==> r == Throw(IllegalArgument("Customer email cannot be blank"))
    ensures !IsBlank(name) && !IsBlank(email) && !MatchesEmailPattern(email)
            ==> r == Throw(IllegalArgument("Invalid email format: " + email))
    ensures r.Return? ==> r.value == CustomerInfo(Trim(name), Lowercase(Trim(email)))
  {
    if IsBlank(name) then Throw(IllegalArgument("Customer name cannot be blank"))
    else if IsBlank(email) then Throw(IllegalArgument("Customer email cannot be blank"))
    else if !MatchesEmailPattern(email) then Throw(IllegalArgument("Invalid email format: " + email))
    else Return(CustomerInfo(Trim(name), Lowercase(Trim(email))))
  }

  datatype PaymentEvent =
    | PaymentCreated(paymentId: string, reservationId: string, amount: Decimal,
                     paymentMethod: string, customerName: string, customerEmail: string)
    | PaymentApproved(paymentId: string, reservationId: string, amount: Decimal)
    | PaymentRejected(paymentId: string, reservationId: string, reason: string)
    | PaymentCancelled(paymentId: string, reservationId: string, amount: Decimal)

  /** The aggregate's own exceptions. */
  datatype PaymentError =
    | PaymentAlreadyProcessed(message: string)
    | InvalidPaymentOperation(message: string)

  /** The first value-object check create fails, in the order the fields
      are set: payment id, reservation id, amount, method, customer. */
  function CreateProblem(paymentId: string, reservationId: string, amount: Decimal, paymentMethod: string,
                         customerName: string, customerEmail: string): (e: Option<IllegalArgument>)
    ensures e.None? <==> && IdOf(paymentId, "Payment ID cannot be blank").Return? && IdOf(reservationId, "Reservation ID cannot be blank").Return?
                         && PaymentAmounts.Of(amount).Return? && PaymentMethods.Of(paymentMethod).Return?
                         && CustomerInfoOf(customerName, customerEmail).Return?
    ensures IsBlank(paymentId) ==> e == Some(IllegalArgument("Payment ID cannot be blank"))
    ensures !IsBlank(paymentId) && IsBlank(reservationId) ==> e == Some(IllegalArgument("Reservation ID cannot be blank"))
  {
    if IdOf(paymentId, "Payment ID cannot be blank").Throw? then Some(IdOf(paymentId, "Payment ID cannot be blank").exception)
    else if IdOf(reservationId, "Reservation ID cannot be blank").Throw? then Some(IdOf(reservationId, "Reservation ID cannot be blank").exception)
    else if PaymentAmounts.Of(amount).Throw? then Some(PaymentAmounts.Of(amount).exception)
    else if PaymentMethods.Of(paymentMethod).Throw? then Some(PaymentMethods.Of(paymentMethod).exception)
    else if CustomerInfoOf(customerName, customerEmail).Throw? then Some(CustomerInfoOf(customerName, customerEmail).exception)
    else None
  }

  /** The message an approved payment carries. */
  const ApprovedMessage := "결제 승인됨"

  /** The message a rejected payment carries: the reason after a prefix. */
  function RejectedMessage(reason: string): (m: string)
    ensures |m| > |reason| && m[|m| - |reason|..] == reason
  {
    "결제 거절됨: " + reason
  }

  class PaymentAggregate {
    var paymentId: string
    var reservationId: string
    var amount: PaymentAmount
    var paymentMethod: PaymentMethod
    var customerInfo: CustomerInfo
    var status: PaymentStatus
    var processedAt: Option<int>
    var message: string
    var domainEvents: seq<PaymentEvent>

    /** The values passed their value objects' checks. */
    ghost predicate Valid()
      reads this
    {
      PaymentAmounts.Valid(amount) && IsValidMethod(paymentMethod.name)
    }

    /** A payment from values that already passed the checks, with the given
        pending events: reconstruct passes none, create its PaymentCreated. */
    constructor (paymentId: string, reservationId: string, amount: PaymentAmount, paymentMethod: PaymentMethod,
                 customerInfo: CustomerInfo, status: PaymentStatus, processedAt: Option<int>, message: string,
                 domainEvents: seq<PaymentEvent>)
      requires PaymentAmounts.Valid(amount) && IsValidMethod(paymentMethod.name)
      ensures Valid() && this.domainEvents == domainEvents
      ensures this.paymentId == paymentId && this.reservationId == reservationId && this.amount == amount
      ensures this.paymentMethod == paymentMethod && this.customerInfo == customerInfo && this.status == status
      ensures this.processedAt == processedAt && this.message == message
    {
      this.paymentId := paymentId;
      this.reservationId := reservationId;
      this.amount := amount;
      this.paymentMethod := paymentMethod;
      this.customerInfo := customerInfo;
      this.status := status;
      this.processedAt := processedAt;
      this.message := message;
      this.domainEvents := domainEvents;
    }

    /** create: the fields are validated in order and the first failure is
        thrown; otherwise the payment is PENDING with the normalised values
        and one PaymentCreated event carrying the arguments as given. */
    static method Create(paymentId: string, reservationId: string, amount: Decimal, paymentMethod: string,
                         customerName: string, customerEmail: string, now: int)
      returns (r: Try<PaymentAggregate, IllegalArgument>)
      ensures r.Throw? <==> CreateProblem(paymentId, reservationId, amount, paymentMethod, customerName, customerEmail).Some?
      ensures r.Throw? ==> r.exception == CreateProblem(paymentId, reservationId, amount, paymentMethod, customerName, customerEmail).value
      ensures r.Return? ==> var p := r.value;
                            && fresh(p) && p.Valid()
                            && p.paymentId == Trim(paymentId) && p.reservationId == Trim(reservationId)
                            && p.amount == PaymentAmount(amount)
                            && p.paymentMethod == PaymentMethod(Normalize(paymentMethod))
                            && p.customerInfo == CustomerInfoOf(customerName, customerEmail).value
                            && p.status == Pending && p.processedAt == Some(now) && p.message == "결제 생성됨"
                            && p.domainEvents == [PaymentCreated(paymentId, reservationId, amount, paymentMethod, customerName, customerEmail)]
    {
      var problem := CreateProblem(paymentId, reservationId, amount, paymentMethod, customerName, customerEmail);
      if problem.Some? {
        return Throw(problem.value);
      }
      assert PaymentAmounts.Of(amount).Return? && PaymentMethods.Of(paymentMethod).Return?;
      var customer := CustomerInfoOf(customerName, customerEmail).value;
      var p := new PaymentAggregate(Trim(paymentId), Trim(reservationId), PaymentAmount(amount),
                                    PaymentMethod(Normalize(paymentMethod)), customer, Pending, Some(now), "결제 생성됨",
                                    [PaymentCreated(paymentId, reservationId, amount, paymentMethod, customerName, customerEmail)]);
      r := Return(p);
    }

    function AlreadyProcessed(): PaymentError
      reads this
    {
      PaymentAlreadyProcessed("Payment " + paymentId + " is already processed with status: " + StatusName(status))
    }

    /** approve: only a pending payment, which becomes SUCCESS with one
        PaymentApproved event; otherwise it throws and nothing changes. */
    method Approve(now: int) returns (r: Try<(), PaymentError>)
      modifies this`status, this`message, this`processedAt, this`domainEvents
      ensures r.Return? <==> Transition(old(status), PaymentCommand.Approve).Some?
      ensures r.Throw? ==> r.exception == old(AlreadyProcessed()) && unchanged(this)
      ensures r.Return? ==> && status == Transition(old(status), PaymentCommand.Approve).value
                            && message == ApprovedMessage && processedAt == Some(now)
                            && domainEvents == old(domainEvents) + [PaymentApproved(paymentId, reservationId, amount.value)]
    {
      if status != Pending {
        return Throw(AlreadyProcessed());
      }
      status := Success;
      message := ApprovedMessage;
      processedAt := Some(now);
      domainEvents := domainEvents + [PaymentApproved(paymentId, reservationId, amount.value)];
      r := Return(());
    }

    /** reject: only a pending payment, which becomes FAILED with the reason
        in its message and one PaymentRejected event; otherwise it throws and
        nothing changes. */
    method Reject(reason: string, now: int) returns (r: Try<(), PaymentError>)
      modifies this`status, this`message, this`processedAt, this`domainEvents
      ensures r.Return? <==> Transition(old(status), PaymentCommand.Reject(reason)).Some?
      ensures r.Throw? ==> r.exception == old(AlreadyProcessed()) && unchanged(this)
      ensures r.Return? ==> && status == Transition(old(status), PaymentCommand.Reject(reason)).value
                            && message == RejectedMessage(reason) && processedAt == Some(now)
                            && domainEvents == old(domainEvents) + [PaymentRejected(paymentId, reservationId, reason)]
    {
      if status != Pending {
        return Throw(AlreadyProcessed());
      }
      status := Failed;
      message := RejectedMessage(reason);
      processedAt := Some(now);
      domainEvents := domainEvents + [PaymentRejected(paymentId, reservationId, reason)];
      r := Return(());
    }

    /** cancel: only a successful payment, which becomes CANCELLED with one
        PaymentCancelled event; the processing time is kept. */
    method Cancel() returns (r: Try<(), PaymentError>)
      modifies this`status, this`message, this`domainEvents
      ensures r.Return? <==> Transition(old(status), PaymentCommand.Cancel).Some?
      ensures r.Throw? ==> && r.exception == InvalidPaymentOperation("Only successful payments can be cancelled. Current status: " + StatusName(old(status)))
                           && unchanged(this)
      ensures r.Return? ==> && status == Transition(old(status), PaymentCommand.Cancel).value && message == "결제 취소됨"
                            && domainEvents == old(domainEvents) + [PaymentCancelled(paymentId, reservationId, amount.value)]
    {
      if status != Success {
        return Throw(InvalidPaymentOperation("Only successful payments can be cancelled. Current status: " + StatusName(status)));
      }
      status := Cancelled;
      message := "결제 취소됨";
      domainEvents := domainEvents + [PaymentCancelled(paymentId, reservationId, amount.value)];
      r := Return(());
    }

    /** canBeCancelled: exactly when cancel would be accepted. */
    predicate CanBeCancelled()
      reads this
      ensures CanBeCancelled() <==> Transition(status, PaymentCommand.Cancel).Some?
    {
      status == Success
    }

    /** isSuccessful: a final status from which only cancel is accepted. */
    predicate IsSuccessful()
      reads this
      ensures IsSuccessful() <==> IsFinalStatus(status) && Transition(status, PaymentCommand.Cancel).Some?
    {
      status == Success
    }

    /** isFailed: a final status from which every command is refused, and
        not the cancelled one. */
    predicate IsFailed()
      reads this
      ensures IsFailed() <==> && status != Cancelled && Transition(status, PaymentCommand.Approve).None?
                              && Transition(status, PaymentCommand.Cancel).None?
      ensures IsFailed() ==> forall c :: Transition(status, c).None?
    {
      status == Failed
    }

    /** isPending: exactly the status in which approve and reject are accepted. */
    predicate IsPending()
      reads this
      ensures IsPending() <==> !IsFinalStatus(status)
      ensures IsPending() <==> Transition(status, PaymentCommand.Approve).Some?
    {
      status == Pending
    }

    /** clearDomainEvents */
    method ClearDomainEvents()
      modifies this`domainEvents
      ensures domainEvents == []
    {
      domainEvents := [];
    }
  }

  /** canBeCancelled and isSuccessful hold together, exactly when cancel is
      not refused; isPending holds exactly when approve and reject are not. */
  lemma GuardsAgree(q: PaymentAggregate, reason: string)
    ensures q.CanBeCancelled() <==> q.IsSuccessful()
    ensures q.CanBeCancelled() <==> Transition(q.status, PaymentCommand.Cancel).Some?
    ensures q.IsPending() <==> Transition(q.status, PaymentCommand.Approve).Some?
    ensures q.IsPending() <==> Transition(q.status, PaymentCommand.Reject(reason)).Some?
  {
  }

  /** A pending payment that is approved and then cancelled ends up
      CANCELLED with exactly the two events added, in that order. */
  method ApproveThenCancel(q: PaymentAggregate, now: int)
    requires q.status == Pending
    modifies q
    ensures q.status == Cancelled && q.message == "결제 취소됨" && q.processedAt == Some(now)
    ensures q.domainEvents == old(q.domainEvents) + [PaymentApproved(q.paymentId, q.reservationId, q.amount.value),
                                                     PaymentCancelled(q.paymentId, q.reservationId, q.amount.value)]
  {
    var approved := q.Approve(now);
    var cancelled := q.Cancel();
  }
}
