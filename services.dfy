/**
 * The service layer. The bank service converts a request and sends it to the
 * bank once; the payment service asks the bank service, builds the payment
 * record from the answer and saves it; the merchant service saves a merchant
 * under a fresh id. Every exception the bank and payment services catch is
 * rethrown as a ServiceException with the same message.
 *
 * Each operation is specified by a function of the request and the bank's
 * answers that gives the requests sent, the records saved and the result.
 */
module Services {
  import opened Wrappers
  import opened Common
  import opened ServiceModels
  import RepositoryModels
  import opened Helpers
  import opened Clients
  import opened Repositories

  /** `new ServiceException(exception.Message, exception)`. */
  function AsServiceException(e: Exception): (s: Exception)
    ensures s.ServiceException? && Message(s) == Message(e)
  {
    ServiceException(Message(e))
  }

  /** Wrapping a ServiceException again changes nothing: messages survive any number of layers. */
  lemma AsServiceExceptionIdempotent(e: Exception)
    ensures AsServiceException(AsServiceException(e)) == AsServiceException(e)
    ensures e.ServiceException? ==> AsServiceException(e) == e
  {
  }

  /** What one call of the bank service does: the requests it sends and what it returns or throws. */
  datatype BankCall = BankCall(sent: seq<BankRequest>, result: Result<RepositoryModels.BankResponse, Exception>)

  /** `GetBankResponse` as the n-th call to the bank. */
  function BankServiceCall(request: PaymentRequest, answer: Answer, n: nat): (c: BankCall)
    ensures |c.sent| <= 1
    ensures c.result.Failure? ==> c.result.error.ServiceException?
  {
    match ConvertToBankRequest(request)
    case Failure(e) => BankCall([], Failure(AsServiceException(e)))
    case Success(bankRequest) =>
      match BankOutcome(answer, n, bankRequest)
      case Failure(e) => BankCall([bankRequest], Failure(AsServiceException(e)))
      case Success(response) => BankCall([bankRequest], Success(response))
  }

  /**
   * The bank service sends exactly one request when the payment request has a
   * card and none otherwise; the request sent carries the card and amount, and
   * the bank's answer comes back unchanged, its failures with their messages.
   */
  lemma BankServiceCallSends(request: PaymentRequest, answer: Answer, n: nat)
    ensures var c := BankServiceCall(request, answer, n);
      && (|c.sent| == 1 <==> request.card.Some?)
      && (request.card.None? ==> c.result == Failure(ServiceException(NullReferenceText)))
      && (|c.sent| == 1 ==>
            && c.sent[0] == ConvertToBankRequest(request).value
            && c.sent[0].cardNumber == request.card.value.number
            && c.sent[0].amount == request.amount
            && (c.result.Success? <==> BankOutcome(answer, n, c.sent[0]).Success?)
            && (c.result.Success? ==> c.result == BankOutcome(answer, n, c.sent[0]))
            && (c.result.Failure? ==> Message(c.result.error) == Message(BankOutcome(answer, n, c.sent[0]).error)))
  {
  }

  /** What one call of the payment service does: the bank requests sent, the records saved, and whether it threw. */
  datatype PaymentCall = PaymentCall(sent: seq<BankRequest>, saved: seq<PaymentResponse>, result: Outcome<Exception>)

  /** `ProcessPayment` as the n-th call to the bank, with `id` as the fresh payment id. */
  function PaymentServiceCall(request: PaymentRequest, answer: Answer, n: nat, id: Guid): (c: PaymentCall)
    ensures |c.saved| <= 1
    ensures |c.saved| == 1 <==> c.result.Pass?
    ensures c.result.Fail? ==> c.result.error.ServiceException?
  {
    var bank := BankServiceCall(request, answer, n);
    match bank.result
    case Failure(e) => PaymentCall(bank.sent, [], Fail(AsServiceException(e)))
    case Success(response) =>
      match CreatePaymentResponse(request, response.authorized, id)
      case Failure(e) => PaymentCall(bank.sent, [], Fail(AsServiceException(e)))
      case Success(payment) => PaymentCall(bank.sent, [payment], Pass)
  }

  /**
   * A payment is saved exactly when the bank answered and the record could be
   * built; a declined payment is saved too, with status Declined, and the
   * record carries the fresh id and the request's merchant, card expiry,
   * currency and amount.
   */
  lemma PaymentServiceCallSaves(request: PaymentRequest, answer: Answer, n: nat, id: Guid)
    ensures var c, bank := PaymentServiceCall(request, answer, n, id), BankServiceCall(request, answer, n);
      && c.sent == bank.sent
      && (c.result.Pass? <==>
            bank.result.Success? && CreatePaymentResponse(request, bank.result.value.authorized, id).Success?)
      && (c.result.Pass? ==>
            && c.saved == [CreatePaymentResponse(request, bank.result.value.authorized, id).value]
            && c.saved[0].id == id
            && c.saved[0].merchantId == request.merchantId
            && (c.saved[0].status == Declined <==> !bank.result.value.authorized)
            && c.saved[0].amount == request.amount
            && c.saved[0].currency == request.currency)
  {
  }

  /** A bank failure reaches the payment service's caller with the bank client's own message. */
  lemma BankFailureMessageSurvives(request: PaymentRequest, answer: Answer, n: nat, id: Guid)
    requires request.card.Some?
    requires BankOutcome(answer, n, ConvertToBankRequest(request).value).Failure?
    ensures PaymentServiceCall(request, answer, n, id).result
      == Fail(ServiceException(Message(BankOutcome(answer, n, ConvertToBankRequest(request).value).error)))
    ensures PaymentServiceCall(request, answer, n, id).saved == []
  {
  }

  class BankService {
    const client: BankApiClient

    constructor (client: BankApiClient)
      ensures this.client == client
    {
      this.client := client;
    }

    method GetBankResponse(request: PaymentRequest) returns (result: Result<RepositoryModels.BankResponse, Exception>)
      modifies client.endpoint
      ensures var c := BankServiceCall(request, client.endpoint.answer, |old(client.endpoint.posted)|);
        client.endpoint.posted == old(client.endpoint.posted) + c.sent && result == c.result
    {
      var converted := ConvertToBankRequest(request);
      if converted.Failure? {
        return Failure(AsServiceException(converted.error));
      }
      var response := client.ProcessPayment(converted.value);
      if response.Failure? {
        return Failure(AsServiceException(response.error));
      }
      return response;
    }
  }

  class PaymentService {
    const repository: PaymentRepository
    const bankService: BankService

    constructor (repository: PaymentRepository, bankService: BankService)
      ensures this.repository == repository && this.bankService == bankService
    {
      this.repository := repository;
      this.bankService := bankService;
    }

    /** `id` stands for the `Guid.NewGuid()` the record is given. */
    method ProcessPayment(request: PaymentRequest, id: Guid) returns (result: Outcome<Exception>)
      modifies repository, bankService.client.endpoint
      ensures var c := PaymentServiceCall(request, bankService.client.endpoint.answer, |old(bankService.client.endpoint.posted)|, id);
        && bankService.client.endpoint.posted == old(bankService.client.endpoint.posted) + c.sent
        && repository.payments == old(repository.payments) + seq(|c.saved|, i requires 0 <= i < |c.saved| => ToRepositoryModel(c.saved[i]))
        && result == c.result
    {
      var bankResponse := bankService.GetBankResponse(request);
      if bankResponse.Failure? {
        return Fail(AsServiceException(bankResponse.error));
      }
      var payment := CreatePaymentResponse(request, bankResponse.value.authorized, id);
      if payment.Failure? {
        return Fail(AsServiceException(payment.error));
      }
      repository.SavePayment(payment.value);
      return Pass;
    }
  }

  class MerchantService {
    const repository: MerchantRepository

    constructor (repository: MerchantRepository)
      ensures this.repository == repository
    {
      this.repository := repository;
    }

    /** `id` stands for the `Guid.NewGuid()` the merchant is given. */
    method CreateMerchant(name: string, id: Guid)
      modifies repository
      ensures repository.merchants == old(repository.merchants) + [RepositoryModels.Merchant(id, name)]
    {
      var merchant := RepositoryModels.Merchant(id, name);
      repository.SaveMerchant(merchant);
    }
  }
}
