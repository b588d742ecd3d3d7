/** The service-side records: the incoming request, its card, and the record built for storage. */
module ServiceModels {
  import opened Wrappers
  import opened Common

  /** Card details of a request; every reference-typed field may be null. */
  datatype Card = Card(
    number: NullableString,
    expiryMonth: Int32,
    expiryYear: Int32,
    cvv: NullableString)

  /** A payment request as bound from the HTTP body. */
  datatype PaymentRequest = PaymentRequest(
    merchantId: Guid,
    card: Option<Card>,
    currency: NullableString,
    amount: Int32)

  datatype PaymentStatus = Authorized | Declined

  /** The payment record the service builds and hands to the repository. */
  datatype PaymentResponse = PaymentResponse(
    id: Guid,
    merchantId: Guid,
    status: PaymentStatus,
    lastFourDigits: string,
    expiryMonth: Int32,
    expiryYear: Int32,
    currency: NullableString,
    amount: Int32)

  /** The request sent to the acquiring bank. */
  datatype BankRequest = BankRequest(
    cardNumber: NullableString,
    expiryDate: string,
    currency: NullableString,
    amount: Int32,
    cvv: NullableString)

  /** Outcome of validating a request. */
  datatype ValidationResult = ValidationResult(success: bool, message: string)
}
