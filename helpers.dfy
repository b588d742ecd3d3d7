/**
 * The two conversions the payment service applies to a validated request: the
 * request sent to the bank, and the payment record kept after the bank answers.
 * Both read the card without checking it, so a missing card (or card number)
 * or a number shorter than four characters throws.
 */
module Helpers {
  import opened Wrappers
  import opened Common
  import opened ServiceModels
  import opened DecimalText
  import Validators

  /** The bank's expiry date: the month with at least two digits, a slash, the year. */
  function GetExpiryDate(expiryMonth: Int32, expiryYear: Int32): string {
    FormatD2(expiryMonth as int) + "/" + IntText(expiryYear as int)
  }

  lemma FormatD2HasNoSlash(n: int)
    ensures '/' !in FormatD2(n)
  {
    FormatD2Shape(n);
    var r := FormatD2(n);
    if n < 0 {
      assert forall i :: 1 <= i < |r| ==> r[i] == r[1..][i - 1];
    }
  }

  lemma IntTextHasNoSlash(n: int)
    ensures '/' !in IntText(n)
  {
    var digits := NatText(if n < 0 then -n else n);
    if n < 0 {
      assert forall i :: 1 <= i < |IntText(n)| ==> IntText(n)[i] == digits[i - 1];
    }
  }

  /** The expiry date has exactly one slash, and the pieces around it read back as the month and the year. */
  lemma ExpiryDateRoundTrip(expiryMonth: Int32, expiryYear: Int32)
    ensures var parts := Split(GetExpiryDate(expiryMonth, expiryYear), '/');
      && |parts| == 2
      && ParseInt(parts[0]) == Some(expiryMonth as int)
      && ParseInt(parts[1]) == Some(expiryYear as int)
  {
    var month, year := FormatD2(expiryMonth as int), IntText(expiryYear as int);
    FormatD2HasNoSlash(expiryMonth as int);
    IntTextHasNoSlash(expiryYear as int);
    assert GetExpiryDate(expiryMonth, expiryYear) == month + ['/'] + year;
    SplitAtFirstSeparator(month, '/', year);
    SplitWithoutSeparator(year, '/');
    FormatD2RoundTrip(expiryMonth as int);
    IntTextRoundTrip(expiryYear as int);
  }

  /** Single-digit months get a leading zero. */
  lemma ExpiryDatePadsMonth()
    ensures GetExpiryDate(12, 2030) == "12/2030"
    ensures GetExpiryDate(3, 2030) == "03/2030"
  {
  }

  /** The month is not checked here: any month is written in full. */
  lemma ExpiryDateKeepsLongMonths()
    ensures GetExpiryDate(20, 2030) == "20/2030"
    ensures GetExpiryDate(123, 2030) == "123/2030"
  {
  }

  /**
   * The bank request for a payment request: card number, currency, amount and
   * CVV carried over unchanged, the expiry date written as month/year. A
   * request without a card throws when its number is read.
   */
  function ConvertToBankRequest(request: PaymentRequest): (r: Result<BankRequest, Exception>)
    ensures r.Failure? <==> request.card.None?
    ensures r.Failure? ==> r.error == NullReference
    ensures r.Success? ==>
      && r.value.cardNumber == request.card.value.number
      && r.value.cvv == request.card.value.cvv
      && r.value.currency == request.currency
      && r.value.amount == request.amount
  {
    match request.card
    case None => Failure(NullReference)
    case Some(card) =>
      Success(BankRequest(card.number, GetExpiryDate(card.expiryMonth, card.expiryYear),
                          request.currency, request.amount, card.cvv))
  }

  /** The bank request's expiry date reads back as the card's month and year. */
  lemma BankRequestExpiryReadsBack(request: PaymentRequest)
    requires request.card.Some?
    ensures ConvertToBankRequest(request).Success?
    ensures var parts := Split(ConvertToBankRequest(request).value.expiryDate, '/');
      && |parts| == 2
      && ParseInt(parts[0]) == Some(request.card.value.expiryMonth as int)
      && ParseInt(parts[1]) == Some(request.card.value.expiryYear as int)
  {
    ExpiryDateRoundTrip(request.card.value.expiryMonth, request.card.value.expiryYear);
  }

  /** `Substring(Length - 4)`: the last four characters; a negative start index throws. */
  function LastFourDigits(number: string): (r: Result<string, Exception>)
    ensures r.Success? <==> |number| >= 4
    ensures r.Failure? ==> r.error == ArgumentOutOfRange
    ensures r.Success? ==> |r.value| == 4 && number == number[..|number| - 4] + r.value
  {
    if |number| - 4 < 0 then Failure(ArgumentOutOfRange) else Success(number[|number| - 4..])
  }

  function ConvertToPaymentStatus(isAuthorized: bool): (status: PaymentStatus)
    ensures status == Authorized <==> isAuthorized
    ensures status == Declined <==> !isAuthorized
  {
    if isAuthorized then Authorized else Declined
  }

  /**
   * The payment record for a request the bank has answered, under a freshly
   * drawn id. The card number is read for its last four characters: a missing
   * card or number throws NullReference, a number shorter than four throws
   * ArgumentOutOfRange.
   */
  function CreatePaymentResponse(request: PaymentRequest, isAuthorized: bool, id: Guid): (r: Result<PaymentResponse, Exception>)
    ensures r.Success? <==> request.card.Some? && request.card.value.number.Some? && |request.card.value.number.value| >= 4
    ensures r.Failure? ==>
      r.error == (if request.card.Some? && request.card.value.number.Some? then ArgumentOutOfRange else NullReference)
    ensures r.Success? ==>
      var card, p := request.card.value, r.value;
      && p.id == id
      && p.merchantId == request.merchantId
      && (p.status == Authorized <==> isAuthorized)
      && card.number.value == card.number.value[..|card.number.value| - 4] + p.lastFourDigits
      && |p.lastFourDigits| == 4
      && p.expiryMonth == card.expiryMonth && p.expiryYear == card.expiryYear
      && p.currency == request.currency && p.amount == request.amount
  {
    if request.card.None? || request.card.value.number.None? then Failure(NullReference)
    else
      var card := request.card.value;
      match LastFourDigits(card.number.value)
      case Failure(e) => Failure(e)
      case Success(lastFour) =>
        Success(PaymentResponse(id, request.merchantId, ConvertToPaymentStatus(isAuthorized), lastFour,
                                card.expiryMonth, card.expiryYear, request.currency, request.amount))
  }

  /**
   * A request the validator accepts can be converted both ways without a
   * crash, and the record keeps the last four characters of its
   * sixteen-character card number.
   */
  lemma ValidatedRequestIsProcessable(request: PaymentRequest, context: Validators.ValidationContext, isAuthorized: bool, id: Guid)
    requires Validators.Validation(Some(request), context) == Success(ValidationResult(true, ""))
    ensures ConvertToBankRequest(request).Success?
    ensures CreatePaymentResponse(request, isAuthorized, id).Success?
    ensures CreatePaymentResponse(request, isAuthorized, id).value.lastFourDigits == request.card.value.number.value[12..]
  {
    Validators.ValidationAcceptsExactly(Some(request), context);
  }

  /** The bank request and the payment record built from the validator tests' sample request. */
  lemma SampleConversions(merchantId: Guid, number: string, isAuthorized: bool, id: Guid)
    requires |number| == 16
    ensures ConvertToBankRequest(Validators.SampleRequest(merchantId, number))
      == Success(BankRequest(Some(number), "12/2030", Some("USD"), 100, Some("123")))
    ensures CreatePaymentResponse(Validators.SampleRequest(merchantId, number), isAuthorized, id)
      == Success(PaymentResponse(id, merchantId, if isAuthorized then Authorized else Declined,
                                 number[12..], 12, 2030, Some("USD"), 100))
  {
    ExpiryDatePadsMonth();
  }
}
