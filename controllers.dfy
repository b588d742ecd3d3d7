/**
 * The payment endpoints. The create endpoint takes the merchant id from the
 * route, validates the request, and only for a valid request calls the
 * payment service; the query endpoints read the payment store.
 */
module Controllers {
  import opened Wrappers
  import opened Common
  import opened ServiceModels
  import RepositoryModels
  import opened Validators
  import opened Clients
  import opened Repositories
  import opened Services

  const PaymentNotFoundText: string := "Payment not found."
  const NoPaymentsFoundText: string := "No payments found."
  const CreateFailedText: string := "Error creating payment."

  /** The action results the controller returns, with their bodies. */
  datatype ActionResult<+T> =
    | Ok(value: T)
    | NotFound(message: string)
    | BadRequest(message: string)
    | NoContent
    | StatusCode(code: nat, message: string)

  /** What one call of the create endpoint does. */
  datatype CreateCall = CreateCall(sent: seq<BankRequest>, saved: seq<PaymentResponse>, result: ActionResult<()>)

  /**
   * `CreatePaymentAsync` for a request posted under the route's merchant id,
   * as the n-th call to the bank with `id` as the fresh payment id.
   */
  function CreatePayment(request: PaymentRequest, routeMerchantId: Guid, context: ValidationContext,
                         answer: Answer, n: nat, id: Guid): (c: CreateCall)
    ensures c.result.NoContent? || c.result.BadRequest? || c.result == StatusCode(500, CreateFailedText)
    ensures c.result.NoContent? <==> |c.saved| == 1
  {
    var routed := request.(merchantId := routeMerchantId);
    match Validation(Some(routed), context)
    case Failure(_) => CreateCall([], [], StatusCode(500, CreateFailedText))
    case Success(validation) =>
      if !validation.success then CreateCall([], [], BadRequest(validation.message))
      else
        var call := PaymentServiceCall(routed, answer, n, id);
        CreateCall(call.sent, call.saved,
                   if call.result.Pass? then NoContent else StatusCode(500, CreateFailedText))
  }

  /** The merchant id in the body is ignored: only the route's counts. */
  lemma RouteMerchantIdWins(request: PaymentRequest, bodyMerchantId: Guid, routeMerchantId: Guid,
                            context: ValidationContext, answer: Answer, n: nat, id: Guid)
    ensures CreatePayment(request.(merchantId := bodyMerchantId), routeMerchantId, context, answer, n, id)
         == CreatePayment(request, routeMerchantId, context, answer, n, id)
    ensures forall i :: 0 <= i < |CreatePayment(request, routeMerchantId, context, answer, n, id).saved| ==>
      CreatePayment(request, routeMerchantId, context, answer, n, id).saved[i].merchantId == routeMerchantId
  {
    var routed := request.(merchantId := routeMerchantId);
    assert request.(merchantId := bodyMerchantId).(merchantId := routeMerchantId) == routed;
    PaymentServiceCallSaves(routed, answer, n, id);
  }

  /**
   * A request the validator rejects, or on which it throws, never reaches the
   * bank or the store: the rejection's message is returned as a bad request,
   * the crash as a 500.
   */
  lemma InvalidRequestIsNotProcessed(request: PaymentRequest, routeMerchantId: Guid,
                                     context: ValidationContext, answer: Answer, n: nat, id: Guid)
    requires Validation(Some(request.(merchantId := routeMerchantId)), context) != Success(ValidationResult(true, ""))
    ensures var c := CreatePayment(request, routeMerchantId, context, answer, n, id);
      && c.sent == [] && c.saved == []
      && (c.result.BadRequest? <==> Validation(Some(request.(merchantId := routeMerchantId)), context).Success?)
      && (c.result.BadRequest? ==> c.result.message == Validation(Some(request.(merchantId := routeMerchantId)), context).value.message)
      && (c.result.BadRequest? ==> c.result.message != "")
  {
    var routed := request.(merchantId := routeMerchantId);
    ValidationAcceptsExactly(Some(routed), context);
  }

  /**
   * A request the validator accepts is sent to the bank exactly once; the
   * endpoint answers 204 exactly when the payment was saved, whatever the
   * bank decided, and 500 when the bank call failed, with nothing saved.
   */
  lemma ValidRequestIsSentOnce(request: PaymentRequest, routeMerchantId: Guid,
                               context: ValidationContext, answer: Answer, n: nat, id: Guid)
    requires Validation(Some(request.(merchantId := routeMerchantId)), context) == Success(ValidationResult(true, ""))
    ensures var c, routed := CreatePayment(request, routeMerchantId, context, answer, n, id), request.(merchantId := routeMerchantId);
      && |c.sent| == 1
      && c.sent[0] == Helpers.ConvertToBankRequest(routed).value
      && (c.result == NoContent <==> BankOutcome(answer, n, c.sent[0]).Success?)
      && (c.result == NoContent ==>
            c.saved[0].status == (if BankOutcome(answer, n, c.sent[0]).value.authorized then Authorized else Declined))
  {
    var routed := request.(merchantId := routeMerchantId);
    ValidationAcceptsExactly(Some(routed), context);
    Helpers.ValidatedRequestIsProcessable(routed, context, true, id);
    Helpers.ValidatedRequestIsProcessable(routed, context, false, id);
    BankServiceCallSends(routed, answer, n);
    PaymentServiceCallSaves(routed, answer, n, id);
  }

  class PaymentController {
    const paymentsRepository: PaymentRepository
    const paymentService: PaymentService

    /** The controller reads the payment store that its payment service writes. */
    ghost predicate Valid() {
      paymentService.repository == paymentsRepository
    }

    /** Both the controller and the payment service are given the one payment store. */
    constructor (paymentsRepository: PaymentRepository, paymentService: PaymentService)
      requires paymentService.repository == paymentsRepository
      ensures this.paymentsRepository == paymentsRepository && this.paymentService == paymentService
      ensures Valid()
    {
      this.paymentsRepository := paymentsRepository;
      this.paymentService := paymentService;
    }

    /** GET payment/all: every stored payment, in saved order. */
    function GetAllPaymentsAsync(): (r: ActionResult<seq<RepositoryModels.PaymentResponse>>)
      reads paymentsRepository
      ensures r == Ok(paymentsRepository.payments)
    {
      Ok(paymentsRepository.GetAllPayments())
    }

    /** GET payment/{merchantId}/{paymentId}: the earliest stored payment with both ids, or 404. */
    function GetPaymentByIdsAsync(merchantId: Guid, paymentId: Guid): (r: ActionResult<RepositoryModels.PaymentResponse>)
      reads paymentsRepository
      ensures r.Ok? || r == NotFound(PaymentNotFoundText)
      ensures r.Ok? <==> exists p :: p in paymentsRepository.payments && p.id == paymentId && p.merchantId == merchantId
      ensures r.Ok? ==> r.value in paymentsRepository.payments && r.value.id == paymentId && r.value.merchantId == merchantId
      ensures r.Ok? <==> FirstWithIds(paymentsRepository.payments, merchantId, paymentId).Some?
      ensures r.Ok? ==> r.value == FirstWithIds(paymentsRepository.payments, merchantId, paymentId).value
    {
      match paymentsRepository.GetPaymentByIds(merchantId, paymentId)
      case None => NotFound(PaymentNotFoundText)
      case Some(payment) => Ok(payment)
    }

    /** GET payment/{merchantId}/all: the merchant's payments, or 404 when there are none. */
    function GetPaymentsByMerchantIdAsync(merchantId: Guid): (r: ActionResult<seq<RepositoryModels.PaymentResponse>>)
      reads paymentsRepository
      ensures r.Ok? || r == NotFound(NoPaymentsFoundText)
      ensures r.Ok? <==> exists p :: p in paymentsRepository.payments && p.merchantId == merchantId
      ensures r.Ok? ==> forall p :: p in r.value <==> p in paymentsRepository.payments && p.merchantId == merchantId
      ensures r.Ok? ==> r.value == PaymentsOfMerchant(paymentsRepository.payments, merchantId)
    {
      var payments := paymentsRepository.GetPaymentsByMerchantId(merchantId);
      if |payments| == 0 then NotFound(NoPaymentsFoundText)
      else
        assert payments[0] in payments;
        Ok(payments)
    }

    /**
     * POST payment/create/{merchantId}; `routeMerchantId` is the route value,
     * `context` what the validator reads from its environment, and `id` the
     * fresh payment id.
     */
    method CreatePaymentAsync(request: PaymentRequest, routeMerchantId: Guid, context: ValidationContext, id: Guid)
      returns (result: ActionResult<()>)
      requires Valid()
      modifies paymentsRepository, paymentService.bankService.client.endpoint
      ensures var c := CreatePayment(request, routeMerchantId, context,
                                     paymentService.bankService.client.endpoint.answer,
                                     |old(paymentService.bankService.client.endpoint.posted)|, id);
        && paymentService.bankService.client.endpoint.posted == old(paymentService.bankService.client.endpoint.posted) + c.sent
        && paymentsRepository.payments == old(paymentsRepository.payments)
             + seq(|c.saved|, i requires 0 <= i < |c.saved| => ToRepositoryModel(c.saved[i]))
        && result == c.result
    {
      var paymentRequest := request.(merchantId := routeMerchantId);
      var validation := Validate(Some(paymentRequest), context);
      if validation.Failure? {
        return StatusCode(500, CreateFailedText);
      }
      if !validation.value.success {
        return BadRequest(validation.value.message);
      }
      var processed := paymentService.ProcessPayment(paymentRequest, id);
      if processed.Fail? {
        return StatusCode(500, CreateFailedText);
      }
      return NoContent;
    }
  }

  /** The create endpoint on the sample request, when the bank answers its first request with 200 and a decision. */
  lemma SampleCreatePayment(merchantId: Guid, number: string, context: ValidationContext, answer: Answer, id: Guid, authorized: bool)
    requires SampleSetting(merchantId, number, context)
    requires answer(0, BankRequest(Some(number), "12/2030", Some("USD"), 100, Some("123")))
      == Success(HttpReply(200, Parsed(RepositoryModels.BankResponse(authorized, None))))
    ensures CreatePayment(SampleRequest(merchantId, number), merchantId, context, answer, 0, id)
      == CreateCall([BankRequest(Some(number), "12/2030", Some("USD"), 100, Some("123"))],
                    [PaymentResponse(id, merchantId, if authorized then Authorized else Declined,
                                     number[12..], 12, 2030, Some("USD"), 100)],
                    NoContent)
  {
    var request := SampleRequest(merchantId, number);
    SampleRequestIsValid(merchantId, number, context);
    Helpers.SampleConversions(merchantId, number, authorized, id);
    assert request.(merchantId := merchantId) == request;
  }

  /** The gateway as wired at start-up: one payment store shared by the controller and the payment service. */
  method NewGateway(answer: Answer) returns (controller: PaymentController)
    ensures fresh(controller.paymentsRepository) && controller.paymentsRepository.payments == []
    ensures controller.Valid()
    ensures fresh(controller.paymentService.bankService.client.endpoint)
    ensures controller.paymentService.bankService.client.endpoint.answer == answer
    ensures controller.paymentService.bankService.client.endpoint.posted == []
  {
    var repository := new PaymentRepository();
    var endpoint := new BankEndpoint(answer);
    var client := new BankApiClient(endpoint);
    var bankService := new BankService(client);
    var service := new PaymentService(repository, bankService);
    controller := new PaymentController(repository, service);
  }

  /**
   * The worked example end to end: the sample request posted under its
   * merchant's route to a fresh gateway whose bank answers every request with
   * 200 and the given decision. One bank request goes out, the endpoint
   * answers 204, and the payment is then found under its ids with the last
   * four characters of the card number.
   */
  method SamplePaymentScenario(merchantId: Guid, number: string, context: ValidationContext, id: Guid, authorized: bool)
    returns (created: ActionResult<()>, sent: seq<BankRequest>,
             fetched: ActionResult<RepositoryModels.PaymentResponse>,
             listed: ActionResult<seq<RepositoryModels.PaymentResponse>>)
    requires SampleSetting(merchantId, number, context)
    ensures created == NoContent
    ensures sent == [BankRequest(Some(number), "12/2030", Some("USD"), 100, Some("123"))]
    ensures fetched == Ok(RepositoryModels.PaymentResponse(id, merchantId, if authorized then Authorized else Declined,
                                                           number[12..], 12, 2030, Some("USD"), 100))
    ensures listed == Ok([fetched.value])
  {
    var answer: Answer := (n: nat, r: BankRequest) =>
      Success(HttpReply(200, Parsed(RepositoryModels.BankResponse(authorized, None))));
    var controller := NewGateway(answer);
    var bankRequest := BankRequest(Some(number), "12/2030", Some("USD"), 100, Some("123"));
    SampleCreatePayment(merchantId, number, context, answer, id, authorized);
    created := controller.CreatePaymentAsync(SampleRequest(merchantId, number), merchantId, context, id);
    sent := controller.paymentService.bankService.client.endpoint.posted;
    var record := RepositoryModels.PaymentResponse(id, merchantId, if authorized then Authorized else Declined,
                                                   number[12..], 12, 2030, Some("USD"), 100);
    assert controller.paymentsRepository.payments == [record];
    fetched := controller.GetPaymentByIdsAsync(merchantId, id);
    listed := controller.GetPaymentsByMerchantIdAsync(merchantId);
  }
}
