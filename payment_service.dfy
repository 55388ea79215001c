/** The payment application service: request validation, processing a
    payment against the external payment system's answer (a parameter here),
    and cancellation. Payments are stored as entities in a map keyed by
    payment id, and the Kafka messages sent are kept as an outbox. */
module PaymentApplication {
  import opened Optional
  import opened Exceptions
  import opened Text
  import opened Money
  import opened PaymentAmounts
  import opened PaymentMethods
  import opened Payments
  import opened Messaging

  datatype CustomerDto = CustomerDto(name: string, email: string)

  datatype PaymentRequest =
    PaymentRequest(reservationId: string, amount: Decimal, paymentMethod: string, customerInfo: Option<CustomerDto>)

  /** What the external payment system answers. */
  datatype ExternalResult = Approved(message: string) | Declined(message: string)

  /** The stored payment entity. */
  datatype PaymentRecord = PaymentRecord(
    paymentId: string, status: PaymentStatus, amount: Decimal, reservationId: string,
    paymentMethod: string, customerName: string, customerEmail: string, processedAt: int, message: string)

  datatype PaymentResponse = PaymentResponse(
    paymentId: string, status: PaymentStatus, amount: Decimal, reservationId: string,
    processedAt: Option<int>, message: string)

  /** The service's exceptions; a value object's IllegalArgumentException
      escaping create passes through as Uncaught. */
  datatype PaymentServiceError =
    | InvalidPaymentRequest(message: string)
    | PaymentProcessing(message: string)
    | PaymentNotFound(paymentId: string)
    | PaymentAlreadyCancelled(paymentId: string)
    | Uncaught(error: IllegalArgument)

  /** The exception's message, as the exception classes format it. */
  function ErrorMessage(e: PaymentServiceError): (m: string)
    ensures e.InvalidPaymentRequest? ==> m == "Invalid payment request: " + e.message
    ensures e.PaymentProcessing? ==> m == "Payment processing failed: " + e.message
  {
    match e
    case InvalidPaymentRequest(message) => "Invalid payment request: " + message
    case PaymentProcessing(message) => "Payment processing failed: " + message
    case PaymentNotFound(id) => "Payment not found with ID: " + id
    case PaymentAlreadyCancelled(id) => "Payment " + id + " is already cancelled"
    case Uncaught(error) => error.message
  }

  /** validatePaymentRequest: reservation id, amount, method, then the
      customer (present, with a name and an e-mail), first failure wins. */
  function ValidatePaymentRequest(request: PaymentRequest): (e: Option<PaymentServiceError>)
    ensures e.None? <==> && !IsBlank(request.reservationId) && Less(Zero, request.amount)
                         && !IsBlank(request.paymentMethod) && request.customerInfo.Some?
                         && !IsBlank(request.customerInfo.value.name) && !IsBlank(request.customerInfo.value.email)
    ensures IsBlank(request.reservationId) ==> e == Some(InvalidPaymentRequest("Reservation ID cannot be blank"))
    ensures !IsBlank(request.reservationId) && LessEq(request.amount, Zero)
            ==> e == Some(InvalidPaymentRequest("Payment amount must be greater than 0"))
    ensures !IsBlank(request.reservationId) && Less(Zero, request.amount) && IsBlank(request.paymentMethod)
            ==> e == Some(InvalidPaymentRequest("Payment method cannot be blank"))
    ensures && !IsBlank(request.reservationId) && Less(Zero, request.amount) && !IsBlank(request.paymentMethod)
            && request.customerInfo.None?
            ==> e == Some(InvalidPaymentRequest("Customer information is required"))
    ensures e.Some? ==> e.value.InvalidPaymentRequest?
  {
    if IsBlank(request.reservationId) then Some(InvalidPaymentRequest("Reservation ID cannot be blank"))
    else if LessEq(request.amount, Zero) then Some(InvalidPaymentRequest("Payment amount must be greater than 0"))
    else if IsBlank(request.paymentMethod) then Some(InvalidPaymentRequest("Payment method cannot be blank"))
    else match request.customerInfo
      case None => Some(InvalidPaymentRequest("Customer information is required"))
      case Some(customer) =>
        if IsBlank(customer.name) then Some(InvalidPaymentRequest("Customer name cannot be blank"))
        else if IsBlank(customer.email) then Some(InvalidPaymentRequest("Customer email cannot be blank"))
        else None
  }

  /** The maximum a payment may be: 100,000,000. */
  const PaymentLimit := Whole(100000000)

  /** A stored entity passed the value objects' checks when it was built. */
  predicate RecordValid(rec: PaymentRecord) {
    PaymentAmounts.Valid(PaymentAmount(rec.amount)) && IsValidMethod(rec.paymentMethod)
  }

  predicate PaymentsValid(payments: map<string, PaymentRecord>) {
    forall key | key in payments :: payments[key].paymentId == key && RecordValid(payments[key])
  }

  /** toResponse of a stored entity. */
  function ResponseOf(rec: PaymentRecord): (r: PaymentResponse)
    ensures r.paymentId == rec.paymentId && r.status == rec.status && r.processedAt == Some(rec.processedAt)
  {
    PaymentResponse(rec.paymentId, rec.status, rec.amount, rec.reservationId, Some(rec.processedAt), rec.message)
  }

  /** The message sent to "payment.approved" after an approval. */
  function ApprovedNotice(reservationId: string): (m: KafkaMessage)
    ensures m.topic == "payment.approved"
    ensures |m.payload| > |reservationId| && m.payload[|m.payload| - |reservationId|..] == reservationId
  {
    KafkaMessage("payment.approved", "Payment approved for reservation: " + reservationId)
  }

  /** What PaymentAggregate.create is given by processPayment. */
  function CreateOf(request: PaymentRequest, newPaymentId: string): Option<IllegalArgument>
    requires request.customerInfo.Some?
  {
    CreateProblem(newPaymentId, request.reservationId, request.amount, request.paymentMethod,
                  request.customerInfo.value.name, request.customerInfo.value.email)
  }

  /** The request passes validation and the aggregate can be created. */
  predicate Admitted(request: PaymentRequest, newPaymentId: string) {
    ValidatePaymentRequest(request).None? && CreateOf(request, newPaymentId).None?
  }

  /** PaymentDomainService.canProcessPayment: the payment is pending and
      does not exceed the limit. */
  method CanProcessPayment(payment: PaymentAggregate) returns (b: bool)
    ensures b <==> payment.status == Pending && LessEq(payment.amount.value, PaymentLimit)
  {
    if !payment.IsPending() {
      return false;
    }
    b := !Less(PaymentLimit, payment.amount.value);
  }

  class PaymentService {
    var payments: map<string, PaymentRecord>
    var published: seq<KafkaMessage>

    ghost predicate Valid()
      reads this
    {
      PaymentsValid(payments)
    }

    constructor (payments: map<string, PaymentRecord>)
      requires PaymentsValid(payments)
      ensures Valid() && this.payments == payments && published == []
    {
      this.payments := payments;
      published := [];
    }

    /** findById: the stored entity rebuilt as an aggregate with no events. */
    method Load(key: string) returns (p: PaymentAggregate)
      requires Valid() && key in payments
      ensures fresh(p) && p.Valid() && p.domainEvents == []
      ensures var rec := payments[key];
              && p.paymentId == rec.paymentId && p.reservationId == rec.reservationId
              && p.amount == PaymentAmount(rec.amount) && p.paymentMethod == PaymentMethod(rec.paymentMethod)
              && p.customerInfo == CustomerInfo(rec.customerName, rec.customerEmail)
              && p.status == rec.status && p.processedAt == Some(rec.processedAt) && p.message == rec.message
    {
      var rec := payments[key];
      p := new PaymentAggregate(rec.paymentId, rec.reservationId, PaymentAmount(rec.amount), PaymentMethod(rec.paymentMethod),
                                CustomerInfo(rec.customerName, rec.customerEmail), rec.status, Some(rec.processedAt),
                                rec.message, []);
    }

    /** save: the aggregate written back as an entity under its id; a
        payment never processed gets the save time. */
    method Save(p: PaymentAggregate, now: int) returns (saved: PaymentRecord)
      requires Valid() && p.Valid()
      modifies this`payments
      ensures Valid()
      ensures saved == PaymentRecord(p.paymentId, p.status, p.amount.value, p.reservationId, p.paymentMethod.name,
                                     p.customerInfo.name, p.customerInfo.email, OrElse(p.processedAt, now), p.message)
      ensures payments == old(payments)[p.paymentId := saved]
    {
      saved := PaymentRecord(p.paymentId, p.status, p.amount.value, p.reservationId, p.paymentMethod.name,
                             p.customerInfo.name, p.customerInfo.email, OrElse(p.processedAt, now), p.message);
      payments := payments[p.paymentId := saved];
    }

    /** getPaymentById */
    method GetPaymentById(paymentId: string) returns (r: Try<PaymentResponse, PaymentServiceError>)
      requires Valid()
      ensures IsBlank(paymentId) ==> r == Throw(InvalidPaymentRequest("Payment ID cannot be blank"))
      ensures !IsBlank(paymentId) && Trim(paymentId) !in payments ==> r == Throw(PaymentNotFound(paymentId))
      ensures !IsBlank(paymentId) && Trim(paymentId) in payments ==> r == Return(ResponseOf(payments[Trim(paymentId)]))
    {
      if IsBlank(paymentId) {
        return Throw(InvalidPaymentRequest("Payment ID cannot be blank"));
      }
      var key := Trim(paymentId);
      if key !in payments {
        return Throw(PaymentNotFound(paymentId));
      }
      r := Return(ResponseOf(payments[key]));
    }

    /** processPayment with a fresh payment id and the external system's
        answer given. Validation, create and the limit check store nothing;
        an approval saves a SUCCESS payment and sends "payment.approved"; a
        decline saves a FAILED payment, sends nothing and throws. */
    method ProcessPayment(request: PaymentRequest, newPaymentId: string, external: ExternalResult, now: int)
      returns (r: Try<PaymentResponse, PaymentServiceError>)
      requires Valid()
      modifies this
      ensures Valid()
      ensures ValidatePaymentRequest(request).Some?
              ==> r == Throw(ValidatePaymentRequest(request).value) && payments == old(payments) && published == old(published)
      ensures ValidatePaymentRequest(request).None? && CreateOf(request, newPaymentId).Some?
              ==> r == Throw(Uncaught(CreateOf(request, newPaymentId).value)) && payments == old(payments) && published == old(published)
      ensures Admitted(request, newPaymentId) && Less(PaymentLimit, request.amount)
              ==> r == Throw(PaymentProcessing("Payment cannot be processed")) && payments == old(payments) && published == old(published)
      ensures Admitted(request, newPaymentId) && LessEq(request.amount, PaymentLimit) ==>
                && Trim(newPaymentId) in payments
                && payments == old(payments)[Trim(newPaymentId) := payments[Trim(newPaymentId)]]
                && payments[Trim(newPaymentId)].reservationId == Trim(request.reservationId)
                && payments[Trim(newPaymentId)].amount == request.amount
      ensures Admitted(request, newPaymentId) && LessEq(request.amount, PaymentLimit) ==>
                var customer := request.customerInfo.value;
                var saved := payments[Trim(newPaymentId)];
                && saved.paymentMethod == Normalize(request.paymentMethod)
                && saved.customerName == Trim(customer.name) && saved.customerEmail == Lowercase(Trim(customer.email))
                && saved.processedAt == now
      ensures Admitted(request, newPaymentId) && LessEq(request.amount, PaymentLimit) && external.Approved? ==>
                && payments[Trim(newPaymentId)].status == Success && payments[Trim(newPaymentId)].message == ApprovedMessage
                && r == Return(ResponseOf(payments[Trim(newPaymentId)]))
                && published == old(published) + [ApprovedNotice(request.reservationId)]
      ensures Admitted(request, newPaymentId) && LessEq(request.amount, PaymentLimit) && external.Declined? ==>
                && payments[Trim(newPaymentId)].status == Failed
                && payments[Trim(newPaymentId)].message == RejectedMessage(external.message)
                && r == Throw(PaymentProcessing("External payment system declined: " + external.message))
                && published == old(published)
    {
      var invalid := ValidatePaymentRequest(request);
      if invalid.Some? {
        return Throw(invalid.value);
      }
      var customer := request.customerInfo.value;
      var created := PaymentAggregate.Create(newPaymentId, request.reservationId, request.amount, request.paymentMethod,
                                             customer.name, customer.email, now);
      if created.Throw? {
        return Throw(Uncaught(created.exception));
      }
      var payment := created.value;
      assert Admitted(request, newPaymentId);
      assert payment.paymentId == Trim(newPaymentId) && payment.amount.value == request.amount;
      ghost var info := CustomerInfoOf(customer.name, customer.email);
      assert info.Return? && payment.customerInfo == info.value;
      assert payment.paymentMethod.name == Normalize(request.paymentMethod);
      r := ProcessCreated(payment, request.reservationId, external, now);
    }

    /** processPayment once the aggregate exists: the domain service's
        check, then the external system's answer. */
    method ProcessCreated(payment: PaymentAggregate, reservationId: string, external: ExternalResult, now: int)
      returns (r: Try<PaymentResponse, PaymentServiceError>)
      requires Valid() && payment.Valid() && payment.status == Pending && payment.processedAt.Some?
      modifies this, payment`status, payment`message, payment`processedAt, payment`domainEvents
      ensures Valid()
      ensures payment.paymentId == old(payment.paymentId) && payment.reservationId == old(payment.reservationId)
      ensures payment.amount == old(payment.amount) && payment.paymentMethod == old(payment.paymentMethod)
      ensures payment.customerInfo == old(payment.customerInfo)
      ensures Less(PaymentLimit, payment.amount.value)
              ==> r == Throw(PaymentProcessing("Payment cannot be processed")) && payments == old(payments) && published == old(published)
      ensures LessEq(payment.amount.value, PaymentLimit) ==>
                && payment.paymentId in payments
                && payments == old(payments)[payment.paymentId := payments[payment.paymentId]]
                && payments[payment.paymentId].reservationId == payment.reservationId
                && payments[payment.paymentId].amount == payment.amount.value
                && payments[payment.paymentId].paymentMethod == payment.paymentMethod.name
                && payments[payment.paymentId].customerName == payment.customerInfo.name
                && payments[payment.paymentId].customerEmail == payment.customerInfo.email
                && payments[payment.paymentId].processedAt == now
      ensures LessEq(payment.amount.value, PaymentLimit) && external.Approved? ==>
                && payments[payment.paymentId].status == Success && payments[payment.paymentId].message == ApprovedMessage
                && r == Return(ResponseOf(payments[payment.paymentId]))
                && published == old(published) + [ApprovedNotice(reservationId)]
      ensures LessEq(payment.amount.value, PaymentLimit) && external.Declined? ==>
                && payments[payment.paymentId].status == Failed
                && payments[payment.paymentId].message == RejectedMessage(external.message)
                && r == Throw(PaymentProcessing("External payment system declined: " + external.message))
                && published == old(published)
    {
      var processable := CanProcessPayment(payment);
      if !processable {
        LessEqTotal(payment.amount.value, PaymentLimit);
        return Throw(PaymentProcessing("Payment cannot be processed"));
      }
      r := Settle(payment, reservationId, external, now);
    }

    /** The branch of processPayment after the external call: approve, save
        and send "payment.approved", or reject, save and throw. */
    method Settle(payment: PaymentAggregate, reservationId: string, external: ExternalResult, now: int)
      returns (r: Try<PaymentResponse, PaymentServiceError>)
      requires Valid() && payment.Valid() && payment.status == Pending && payment.processedAt.Some?
      modifies this, payment`status, payment`message, payment`processedAt, payment`domainEvents
      ensures Valid()
      ensures payment.paymentId == old(payment.paymentId) && payment.reservationId == old(payment.reservationId)
      ensures payment.amount == old(payment.amount)
      ensures payment.paymentId in payments && payments == old(payments)[payment.paymentId := payments[payment.paymentId]]
      ensures var saved := payments[payment.paymentId];
              && saved.paymentId == payment.paymentId && saved.reservationId == payment.reservationId
              && saved.amount == payment.amount.value && saved.paymentMethod == payment.paymentMethod.name
              && saved.customerName == payment.customerInfo.name && saved.customerEmail == payment.customerInfo.email
              && saved.processedAt == now
      ensures external.Approved? ==>
                && payments[payment.paymentId].status == Success && payments[payment.paymentId].message == ApprovedMessage
                && r == Return(ResponseOf(payments[payment.paymentId]))
                && published == old(published) + [ApprovedNotice(reservationId)]
      ensures external.Declined? ==>
                && payments[payment.paymentId].status == Failed
                && payments[payment.paymentId].message == RejectedMessage(external.message)
                && r == Throw(PaymentProcessing("External payment system declined: " + external.message))
                && published == old(published)
    {
      if external.Approved? {
        var approved := payment.Approve(now);
        match approved
        case Return(_) =>
          var saved := Save(payment, now);
          published := published + [ApprovedNotice(reservationId)];
          r := Return(ResponseOf(saved));
        case Throw(_) =>
          r := Throw(PaymentProcessing("Payment already processed"));
      } else {
        var rejected := payment.Reject(external.message, now);
        var saved := Save(payment, now);
        r := Throw(PaymentProcessing("External payment system declined: " + external.message));
      }
    }

    /** The part of cancelPayment after the checks: the loaded aggregate is
        cancelled, saved and "payment.cancelled" is sent. */
    method CancelStored(key: string, paymentId: string) returns (r: Try<PaymentResponse, PaymentServiceError>)
      requires Valid() && key in payments && payments[key].status == Success
      modifies this
      ensures Valid()
      ensures var rec := old(payments)[key].(status := Cancelled, message := "결제 취소됨");
              && r == Return(ResponseOf(rec))
              && payments == old(payments)[key := rec]
              && published == old(published) + [KafkaMessage("payment.cancelled", "Payment cancelled: " + paymentId)]
    {
      var payment := Load(key);
      var cancelled := payment.Cancel();
      match cancelled
      case Return(_) =>
        var saved := Save(payment, 0);
        published := published + [KafkaMessage("payment.cancelled", "Payment cancelled: " + paymentId)];
        r := Return(ResponseOf(saved));
      case Throw(e) =>
        r := Throw(InvalidPaymentRequest(e.message));
    }

    /** cancelPayment: a blank id, an unknown id, and a payment that is not
        SUCCESS are refused (a cancelled one with its own exception) and
        nothing changes; otherwise the payment is saved CANCELLED and
        "payment.cancelled" is sent. */
    method CancelPayment(paymentId: string) returns (r: Try<PaymentResponse, PaymentServiceError>)
      requires Valid()
      modifies this
      ensures Valid()
      ensures r.Throw? ==> payments == old(payments) && published == old(published)
      ensures IsBlank(paymentId) ==> r == Throw(InvalidPaymentRequest("Payment ID cannot be blank"))
      ensures !IsBlank(paymentId) && Trim(paymentId) !in old(payments) ==> r == Throw(PaymentNotFound(paymentId))
      ensures !IsBlank(paymentId) && Trim(paymentId) in old(payments) ==>
                var rec := old(payments)[Trim(paymentId)];
                && (rec.status == Cancelled ==> r == Throw(PaymentAlreadyCancelled(paymentId)))
                && (rec.status == Pending || rec.status == Failed
                    ==> r == Throw(InvalidPaymentRequest("Payment " + paymentId + " cannot be cancelled (status: " + StatusName(rec.status) + ")")))
                && (rec.status == Success
                    ==> && r == Return(ResponseOf(rec.(status := Cancelled, message := "결제 취소됨")))
                        && payments == old(payments)[Trim(paymentId) := rec.(status := Cancelled, message := "결제 취소됨")]
                        && published == old(published) + [KafkaMessage("payment.cancelled", "Payment cancelled: " + paymentId)])
    {
      if IsBlank(paymentId) {
        return Throw(InvalidPaymentRequest("Payment ID cannot be blank"));
      }
      var key := Trim(paymentId);
      if key !in payments {
        return Throw(PaymentNotFound(paymentId));
      }
      var rec := payments[key];
      if rec.status != Success {
        if rec.status == Cancelled {
          return Throw(PaymentAlreadyCancelled(paymentId));
        }
        return Throw(InvalidPaymentRequest("Payment " + paymentId + " cannot be cancelled (status: " + StatusName(rec.status) + ")"));
      }
      r := CancelStored(key, paymentId);
    }
  }
}
