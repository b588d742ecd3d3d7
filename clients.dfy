/**
 * The HTTP client for the acquiring bank. A POST of the bank request either
 * fails in transport or yields a status code and a body; a success status
 * with a readable body gives the bank's answer, and every other reply becomes
 * a RepositoryException whose text depends only on the status code.
 */
module Clients {
  import opened Wrappers
  import opened Common
  import opened ServiceModels
  import opened RepositoryModels

  const EmptyResponseText: string := "Bank Api call returned an empty response"
  const StatusFailurePrefix: string := "Bank Api call failed with Http status code: "
  const UnexpectedErrorText: string := "Unexpected error occurred while calling Bank API"

  const BadRequest: nat := 400
  const ServiceUnavailable: nat := 503

  /** The JSON body of a reply as read into a BankResponse: the object, `null`, or unreadable text. */
  datatype Body = Parsed(response: BankResponse) | Null | Unreadable(error: string)

  /** A reply of the bank's HTTP endpoint. */
  datatype HttpReply = HttpReply(status: nat, body: Body)

  /** `HttpResponseMessage.IsSuccessStatusCode`. */
  predicate IsSuccessStatusCode(status: nat) {
    200 <= status <= 299
  }

  /** The name `HttpStatusCode.ToString()` gives the two codes the client reports. */
  function StatusName(status: nat): string
    requires status == BadRequest || status == ServiceUnavailable
  {
    if status == BadRequest then "BadRequest" else "ServiceUnavailable"
  }

  /**
   * What `ProcessPayment` makes of a reply: the bank's answer, or the
   * exception it throws.
   */
  function ReadReply(reply: HttpReply): (r: Result<BankResponse, Exception>)
    ensures r.Success? <==> IsSuccessStatusCode(reply.status) && reply.body.Parsed?
    ensures r.Success? ==> r.value == reply.body.response
    ensures r.Failure? ==> r.error.RepositoryException? || r.error.JsonException?
  {
    if IsSuccessStatusCode(reply.status) then
      match reply.body
      case Parsed(response) => Success(response)
      case Null => Failure(RepositoryException(EmptyResponseText))
      case Unreadable(error) => Failure(JsonException(error))
    else if reply.status == BadRequest || reply.status == ServiceUnavailable then
      Failure(RepositoryException(StatusFailurePrefix + StatusName(reply.status)))
    else
      Failure(RepositoryException(UnexpectedErrorText))
  }

  /** The failure texts: the body is read only for a success status; otherwise only the status code decides. */
  lemma ReadReplyFailureTexts(reply: HttpReply)
    ensures IsSuccessStatusCode(reply.status) && reply.body.Null? ==>
      ReadReply(reply) == Failure(RepositoryException("Bank Api call returned an empty response"))
    ensures reply.status == 400 ==>
      ReadReply(reply) == Failure(RepositoryException("Bank Api call failed with Http status code: BadRequest"))
    ensures reply.status == 503 ==>
      ReadReply(reply) == Failure(RepositoryException("Bank Api call failed with Http status code: ServiceUnavailable"))
    ensures !IsSuccessStatusCode(reply.status) && reply.status != 400 && reply.status != 503 ==>
      ReadReply(reply) == Failure(RepositoryException("Unexpected error occurred while calling Bank API"))
    ensures !IsSuccessStatusCode(reply.status) ==>
      forall body: Body :: ReadReply(reply.(body := body)) == ReadReply(reply)
  {
    assert StatusFailurePrefix + "BadRequest" == "Bank Api call failed with Http status code: BadRequest";
    assert StatusFailurePrefix + "ServiceUnavailable" == "Bank Api call failed with Http status code: ServiceUnavailable";
  }

  /**
   * What the bank's endpoint does with the n-th POST it receives: a reply, or
   * the text of the transport failure.
   */
  type Answer = (nat, BankRequest) -> Result<HttpReply, string>

  /** The outcome of the n-th call of `ProcessPayment` with the given request. */
  function BankOutcome(answer: Answer, n: nat, request: BankRequest): (r: Result<BankResponse, Exception>)
    ensures r.Success? <==> answer(n, request).Success? && ReadReply(answer(n, request).value).Success?
    ensures answer(n, request).Failure? ==> r == Failure(HttpRequestException(answer(n, request).error))
  {
    match answer(n, request)
    case Failure(text) => Failure(HttpRequestException(text))
    case Success(reply) => ReadReply(reply)
  }

  /**
   * The bank's HTTP endpoint as the client sees it: it records every request
   * posted to it and answers the n-th one with `answer(n, request)`.
   */
  class BankEndpoint {
    var posted: seq<BankRequest>
    const answer: Answer

    constructor (answer: Answer)
      ensures posted == [] && this.answer == answer
    {
      posted := [];
      this.answer := answer;
    }

    /** `PostAsJsonAsync`: one more request on record, and the endpoint's reply to it. */
    method Post(request: BankRequest) returns (reply: Result<HttpReply, string>)
      modifies this
      ensures posted == old(posted) + [request]
      ensures reply == answer(|old(posted)|, request)
    {
      reply := answer(|posted|, request);
      posted := posted + [request];
    }
  }

  class BankApiClient {
    const endpoint: BankEndpoint

    constructor (endpoint: BankEndpoint)
      ensures this.endpoint == endpoint
    {
      this.endpoint := endpoint;
    }

    /** Posts the request exactly once and reads the reply. */
    method ProcessPayment(request: BankRequest) returns (result: Result<BankResponse, Exception>)
      modifies endpoint
      ensures endpoint.posted == old(endpoint.posted) + [request]
      ensures result == BankOutcome(endpoint.answer, |old(endpoint.posted)|, request)
    {
      var delivery := endpoint.Post(request);
      if delivery.Failure? {
        return Failure(HttpRequestException(delivery.error));
      }
      var reply := delivery.value;
      if IsSuccessStatusCode(reply.status) {
        if reply.body.Unreadable? {
          return Failure(JsonException(reply.body.error));
        }
        if reply.body.Null? {
          return Failure(RepositoryException(EmptyResponseText));
        }
        return Success(reply.body.response);
      }
      if reply.status == BadRequest {
        return Failure(RepositoryException(StatusFailurePrefix + StatusName(reply.status)));
      }
      if reply.status == ServiceUnavailable {
        return Failure(RepositoryException(StatusFailurePrefix + StatusName(reply.status)));
      }
      return Failure(RepositoryException(UnexpectedErrorText));
    }
  }
}
