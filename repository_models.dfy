/** The repository-side records: the acquirer's answer, the stored payment and the merchant. */
module RepositoryModels {
  import opened Common
  import ServiceModels

  /** The acquiring bank's answer to an authorization request. */
  datatype BankResponse = BankResponse(authorized: bool, authorizationCode: NullableString)

  /** A payment as kept in the payment store and returned by the query endpoints. */
  datatype PaymentResponse = PaymentResponse(
    id: Guid,
    merchantId: Guid,
    status: ServiceModels.PaymentStatus,
    lastFourDigits: string,
    expiryMonth: Int32,
    expiryYear: Int32,
    currency: NullableString,
    amount: Int32)

  datatype Merchant = Merchant(id: Guid, name: string)
}
