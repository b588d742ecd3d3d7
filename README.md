# Payment gateway: a Dafny model of the card-payment pipeline

This project models the card-payment pipeline of a small ASP.NET payment gateway.
A merchant posts a card payment to `payment/create/{merchantId}`. The controller
takes the merchant id from the route. The request validator checks the request
and produces an error message built from three blocks of rules. A valid request
goes to the payment service. The payment service asks the bank service, which
converts the request and posts it to the acquiring bank through the bank API
client. The answer becomes a payment record, Authorized or Declined, holding
only the last four card digits. The record is appended to the in-memory payment
store. The query endpoints read that store by merchant, or by merchant and
payment id. A merchant service saves named merchants in a second store.

The model has one module per layer:

- `Wrappers`, `Common`, `ServiceModels` and `RepositoryModels` hold the records.
  C# `int` fields are `Int32`. A nullable string is `Option<string>`. Exceptions
  are the `Exception` datatype, and `Message` gives an exception's text.
- `NumberPattern` is the validator's "numbers only" test. It is a deterministic
  automaton for the .NET pattern `^-?[0-9]+(?:\.[0-9]+)?$`. It is proved equal
  to a word-level description of the pattern's language.
- `DecimalText` covers how .NET writes integers, both `ToString()` and the `D2`
  format, and how such text is read back.
- `Validators` is the request validator. Its three rule blocks are methods that
  build their error lists step by step, as the source does. Each method is
  proved against a table of checks: a condition and its message, in rule order.
  The message shape and the accept-exactly-when theorem are lemmas.
- `Helpers` holds the two conversions: payment request to bank request, and
  request plus bank decision to payment record.
- `Clients` is the bank API client. The bank's HTTP endpoint is an object that
  records every POST it receives. It answers the n-th POST with a reply given as
  a parameter: a status code and a body, or a transport failure.
- `Repositories` holds the payment and merchant stores, as classes over `seq`.
- `Services` holds the bank, payment and merchant services, as classes. Each
  method is tied to a function that gives the requests sent to the bank, the
  records saved and the result.
- `Controllers` is the payment controller: the query endpoints as functions of
  the store, and the create endpoint as a method tied to the function
  `CreatePayment`. It also has the gateway as wired at start-up, and an
  end-to-end scenario.

Some things come from outside the program: the clock (year and month), the
platform newline, the names of the `Currency` enumeration, fresh GUIDs and the
bank's replies. The model takes all of these as parameters.

## Model

| member | source | states |
|---|---|---|
| NumberPattern.IsNumbersOnlyMatchesPattern | PaymentGateway.Services.Models/Validators/PaymentRequestValidator.cs:118-123 | The numbers-only test accepts a string if and only if it is an optional '-', one or more ASCII digits, and optionally '.' followed by one or more digits. One final line feed is also allowed, because .NET's `$` also matches before a line feed that ends the input. |
| NumberPattern.ScanIsRunWithFinalLineFeed | PaymentGateway.Services.Models/Validators/PaymentRequestValidator.cs:120 | The scan accepts exactly what the automaton accepts, with or without one trailing line feed. |
| NumberPattern.RunMatchesLiteral | PaymentGateway.Services.Models/Validators/PaymentRequestValidator.cs:120 | The automaton accepts exactly the signed number literals `-?[0-9]+(?:\.[0-9]+)?`. |
| NumberPattern.DigitsPass | PaymentGateway.Services.Models/Validators/PaymentRequestValidator.cs:118-123 | Every non-empty string of ASCII digits passes the test. |
| NumberPattern.ForeignCharacterFails | PaymentGateway.Services.Models/Validators/PaymentRequestValidator.cs:118-123 | A string fails the test if it holds any character other than a digit, '-', '.' or a line feed. |
| NumberPattern.IsNumbersOnlyExamples | PaymentGateway.Services.Models/Validators/PaymentRequestValidator.cs:120 | "-12", "1.5" and "123" pass. "", "12E", "1." and "-" fail. |
| Validators.FailuresMembers | PaymentGateway.Services.Models/Validators/PaymentRequestValidator.cs:47-79 | A block reports a message if and only if a rule with that message fails. It reports nothing if and only if no rule fails. |
| Validators.ValidatePaymentRequest | PaymentGateway.Services.Models/Validators/PaymentRequestValidator.cs:23-31 | The first block reports "Payment request must be supplied." exactly when there is no request, and nothing otherwise. |
| Validators.ValidateCardDetails | PaymentGateway.Services.Models/Validators/PaymentRequestValidator.cs:33-84 | The second block reports nothing without a request. It reports only "Card details must be supplied." without a card. Otherwise it gives what the card rules give. |
| Validators.ValidateCard | PaymentGateway.Services.Models/Validators/PaymentRequestValidator.cs:47-79 | A missing or empty number is reported alone (the early return). Otherwise, a missing CVV throws NullReference. With a CVV, the result is the messages of the failing card rules in source order, and the two expiry rules form an if / else-if pair. |
| Validators.CardChecksOneByOne | PaymentGateway.Services.Models/Validators/PaymentRequestValidator.cs:52-79 | The card rules' table reports what the seven ifs collect one after another. |
| Validators.ValidateRequestParams | PaymentGateway.Services.Models/Validators/PaymentRequestValidator.cs:86-116 | The third block reports nothing without a request. Otherwise it reports the failing rules among: merchant id empty, amount ≤ 0, currency missing or empty, and (else-if) currency not equal to any enumeration name ignoring case. |
| Validators.ParamChecksOneByOne | PaymentGateway.Services.Models/Validators/PaymentRequestValidator.cs:92-112 | The parameter rules' table reports what the ifs of the third block collect one after another. |
| Validators.BuildErrorMessageSeparatesByTwoNewLines | PaymentGateway.Services.Models/Validators/PaymentRequestValidator.cs:125-132 | A block's text is its errors in order, separated by two newlines. |
| Validators.BuildErrorMessageEmptyIff | PaymentGateway.Services.Models/Validators/PaymentRequestValidator.cs:125-132 | When no error text is empty, a block's text is empty if and only if the block has no error. A single error is reproduced verbatim. |
| Validators.TextEmptyIff | PaymentGateway.Services.Models/Validators/PaymentRequestValidator.cs:125-132 | A block whose messages are all non-empty has empty text exactly when none of its rules fails. |
| Validators.Validate | PaymentGateway.Services.Models/Validators/PaymentRequestValidator.cs:9-21 | The message is the three block texts concatenated with no separator. Success holds if and only if the message is empty. A crash in the card block is the result. |
| Validators.NullRequestIsRejected | PaymentGateway.Services.Models/Validators/PaymentRequestValidator.cs:13-29 | A missing request gives exactly "Payment request must be supplied." and no success. |
| Validators.MissingCardIsRejected | PaymentGateway.Services.Models/Validators/PaymentRequestValidator.cs:41-44 | A missing card gives "Card details must be supplied.", followed directly by the parameter block's text. |
| Validators.MissingCardNumberIsRejected | PaymentGateway.Services.Models/Validators/PaymentRequestValidator.cs:47-51 | A missing or empty card number gives "Card number must be supplied." and the parameter block's text. Nothing else in the card is looked at, so a missing CVV does not crash. |
| Validators.MissingCvvCrashes | PaymentGateway.Services.Models/Validators/PaymentRequestValidator.cs:72 | With a card number and no CVV, the validator throws NullReference. |
| Validators.CompleteCardMessage | PaymentGateway.Services.Models/Validators/PaymentRequestValidator.cs:13-18 | With a card number and a CVV, the message is the card errors and then the parameter errors, each joined by two newlines. Success holds exactly when that message is empty. |
| Validators.CardChecksPassIff | PaymentGateway.Services.Models/Validators/PaymentRequestValidator.cs:52-79 | No card rule fails if and only if: the number has 16 characters and passes the test; the month is in 1..12; the expiry is after the current month; and the CVV has 3 characters and passes the test. |
| Validators.ParamChecksPassIff | PaymentGateway.Services.Models/Validators/PaymentRequestValidator.cs:92-112 | No parameter rule fails if and only if the merchant id is not empty, the amount is positive, and the currency is a known name ignoring case. |
| Validators.ValidationAcceptsExactly | PaymentGateway.Services.Models/Validators/PaymentRequestValidator.cs:9-21 | The validator returns success with an empty message if and only if: there is a request and a card, every card rule passes, and every parameter rule passes. |
| Validators.OnlyCardRuleFails | PaymentGateway.Services.Models/Validators/PaymentRequestValidator.cs:52-79 | When exactly one card rule fails and the parameters are acceptable, that rule's message is the whole text. |
| Validators.SampleRequestIsValid | PaymentGateway.Service.Models.UnitTests/PaymentRequestValidatorTests.cs:20-27 | The tests' sample request is valid for a 16-digit number, a clock after 2000 and before December 2030, and USD among the currencies. |
| Validators.CardChangeBreakingOneRule | PaymentGateway.Services.Models/Validators/PaymentRequestValidator.cs:52-79 | In a valid request, a card that breaks exactly one rule is reported with that rule's message alone. |
| Validators.CardNumberOfWrongLength | PaymentGateway.Services.Models/Validators/PaymentRequestValidator.cs:52-55 | In a valid request, a numeric card number of the wrong length gives exactly "Card number must be 16 digits long." |
| Validators.CardNumberNotNumeric | PaymentGateway.Services.Models/Validators/PaymentRequestValidator.cs:56-59 | In a valid request, a 16-character number that fails the test gives exactly "Card number must only contain digits." |
| Validators.CardNumberShortAndNotNumeric | PaymentGateway.Services.Models/Validators/PaymentRequestValidator.cs:52-59 | The length rule and the digits rule are independent. A number that breaks both gives both messages, in order, separated by two newlines. |
| Validators.ExpiryMonthTooLarge | PaymentGateway.Services.Models/Validators/PaymentRequestValidator.cs:60-63 | In a valid request, a month above 12 gives exactly "Expiry month must be between 1 and 12." |
| Validators.ExpiryYearInPast | PaymentGateway.Services.Models/Validators/PaymentRequestValidator.cs:64-67 | In a valid request, a past year gives exactly "Expiry year cannot be in the past.", and the expired-card rule does not also fire. |
| Validators.ExpiringThisMonth | PaymentGateway.Services.Models/Validators/PaymentRequestValidator.cs:68-71 | In a valid request, a card expiring this month gives exactly "Card has already expired." |
| Validators.CvvOfWrongLength | PaymentGateway.Services.Models/Validators/PaymentRequestValidator.cs:72-75 | In a valid request, a numeric CVV of the wrong length gives exactly "CVV must be 3 digits long." |
| Validators.CvvNotNumeric | PaymentGateway.Services.Models/Validators/PaymentRequestValidator.cs:76-79 | In a valid request, a 3-character CVV that fails the test gives exactly "CVV must only contain digits." |
| Validators.SampleNumberAndExpiryMutations | PaymentGateway.Service.Models.UnitTests/PaymentRequestValidatorTests.cs:56-153 | Each one-field change of the sample request's card number, expiry month or expiry year from the unit tests gives exactly the message that test expects. |
| Validators.SampleCvvMutations | PaymentGateway.Service.Models.UnitTests/PaymentRequestValidatorTests.cs:56-153 | Each one-field change of the sample request's CVV from the unit tests gives exactly the message that test expects. |
| Validators.PatternAdmitsNonDigitCvvs | PaymentGateway.Services.Models/Validators/PaymentRequestValidator.cs:76-79 | The CVV digits rule follows the pattern. The CVVs "1.5" and "12\n" leave the sample request valid. |
| Validators.CurrencyCaseIgnored | PaymentGateway.Services.Models/Validators/PaymentRequestValidator.cs:108-109 | If a currency code is known, every code equal to it ignoring ASCII case is known too. |
| DecimalText.FormatD2Shape | PaymentGateway.Services/Helpers/BankRequestHelper.cs:22 | `D2` text has at least two characters. It ends with every digit of the magnitude, so nothing is truncated. It is all digits, behind a '-' for negatives. |
| DecimalText.FormatD2RoundTrip | PaymentGateway.Services/Helpers/BankRequestHelper.cs:22 | Reading the `D2` text of any integer back gives that integer. |
| DecimalText.IntTextRoundTrip | PaymentGateway.Services/Helpers/BankRequestHelper.cs:22 | Reading the `ToString()` text of any integer back gives that integer. |
| Helpers.ExpiryDateRoundTrip | PaymentGateway.Services/Helpers/BankRequestHelper.cs:20-23 | The expiry date splits on '/' into exactly two pieces, which read back as the month and the year. This holds for every month and year, with '-' as the negative sign. |
| Helpers.ExpiryDatePadsMonth | PaymentGateway.Services/Helpers/BankRequestHelper.cs:22 | 12/2030 gives "12/2030" and 3/2030 gives "03/2030". |
| Helpers.ExpiryDateKeepsLongMonths | PaymentGateway.Services/Helpers/BankRequestHelper.cs:22 | The month is not checked or truncated: 20 gives "20/2030" and 123 gives "123/2030". |
| Helpers.ConvertToBankRequest | PaymentGateway.Services/Helpers/BankRequestHelper.cs:7-18 | The conversion fails, with NullReference, if and only if the card is missing. Otherwise the card number, CVV, currency and amount are copied unchanged. |
| Helpers.BankRequestExpiryReadsBack | PaymentGateway.Services/Helpers/BankRequestHelper.cs:13 | The bank request's expiry date reads back as the card's month and year. |
| Helpers.LastFourDigits | PaymentGateway.Services/Helpers/PaymentResponseHelper.cs:28-31 | The result is the number's final four characters if and only if the number has at least four. Otherwise `Substring` throws ArgumentOutOfRange. |
| Helpers.ConvertToPaymentStatus | PaymentGateway.Services/Helpers/PaymentResponseHelper.cs:23-26 | The status is Authorized if and only if the bank authorized, and Declined if and only if it did not. |
| Helpers.CreatePaymentResponse | PaymentGateway.Services/Helpers/PaymentResponseHelper.cs:8-21 | The record gets the given fresh id, the request's merchant, expiry, currency and amount, the status of the decision, and the number's last four characters. A missing card or number throws NullReference. A number shorter than four throws ArgumentOutOfRange. |
| Helpers.ValidatedRequestIsProcessable | PaymentGateway.Services/Helpers/PaymentResponseHelper.cs:15 | A request the validator accepts converts both ways without throwing. Its record holds characters 12 to 15 of the card number. |
| Helpers.SampleConversions | PaymentGateway.Services/Helpers/BankRequestHelper.cs:7-18 | The sample request gives the bank request (number, "12/2030", "USD", 100, "123") and the record with the number's last four characters. |
| Clients.ReadReply | PaymentGateway.Repositories/Clients/BankApiClient.cs:35-60 | A reply gives the bank's answer, unchanged, if and only if the status is 2xx and the body parsed. Every other reply is a RepositoryException, or a JsonException for an unreadable body. |
| Clients.ReadReplyFailureTexts | PaymentGateway.Repositories/Clients/BankApiClient.cs:39-60 | The failure texts are exact: "...returned an empty response" for a 2xx null body, "...: BadRequest" for 400, "...: ServiceUnavailable" for 503, and "Unexpected error..." for any other non-2xx status. For a non-2xx status the body is never read. |
| Clients.BankOutcome | PaymentGateway.Repositories/Clients/BankApiClient.cs:33-60 | A call succeeds if and only if the POST got a reply that reads as an answer. A transport failure becomes HttpRequestException. |
| Clients.BankEndpoint.Post | PaymentGateway.Repositories/Clients/BankApiClient.cs:33 | A POST adds exactly the request to the endpoint's record and returns the endpoint's reply to it. |
| Clients.BankApiClient.ProcessPayment | PaymentGateway.Repositories/Clients/BankApiClient.cs:31-61 | Posts the request exactly once, with no retry, and returns the classified outcome. |
| Repositories.ToRepositoryModel | PaymentGateway.Repositories/PaymentRepository.cs:18 | The stored record has the same id, merchant, status, last four digits, expiry, currency and amount as the service record. |
| Repositories.ToRepositoryModelInjective | src/PaymentGateway.Api/Program.cs:27 | The mapping loses nothing: two service records that map to the same stored record are equal. |
| Repositories.PaymentsOfMerchantMembers | PaymentGateway.Repositories/PaymentRepository.cs:30 | A payment is listed for a merchant if and only if it is stored and belongs to that merchant. |
| Repositories.MerchantPositions | PaymentGateway.Repositories/PaymentRepository.cs:30 | The positions of the merchant's payments in the store: strictly increasing, and a position is listed if and only if the payment there belongs to the merchant. |
| Repositories.PaymentsOfMerchantPositions | PaymentGateway.Repositories/PaymentRepository.cs:30 | The merchant's list is the stored payments at those positions, in store order. |
| Repositories.PaymentsOfMerchantCounts | PaymentGateway.Repositories/PaymentRepository.cs:30 | Each of the merchant's payments is listed as many times as it is stored. Payments of other merchants are not listed. |
| Repositories.PaymentsOfMerchantAfterSave | PaymentGateway.Repositories/PaymentRepository.cs:16-31 | Saving a payment appends it to its own merchant's list, keeping insertion order, and leaves other merchants' lists unchanged. |
| Repositories.FirstWithIds | PaymentGateway.Repositories/PaymentRepository.cs:35 | The lookup finds nothing if and only if no stored payment has both ids. What it finds has both ids. |
| Repositories.FirstWithIdsIsEarliest | PaymentGateway.Repositories/PaymentRepository.cs:35 | The payment found is the earliest stored one with both ids. |
| Repositories.FirstWithIdsAfterSave | PaymentGateway.Repositories/PaymentRepository.cs:19-35 | There is no uniqueness check. A later save never changes what a lookup finds, so duplicates resolve to the earlier entry. A payment saved under new ids is found by them. |
| Repositories.PaymentRepository.constructor | PaymentGateway.Repositories/PaymentRepository.cs:14 | The store starts empty. |
| Repositories.PaymentRepository.SavePayment | PaymentGateway.Repositories/PaymentRepository.cs:16-21 | Appends exactly the mapped record at the end and leaves earlier entries unchanged. |
| Repositories.PaymentRepository.GetAllPayments | PaymentGateway.Repositories/PaymentRepository.cs:23-26 | Returns every saved record in insertion order. |
| Repositories.PaymentRepository.GetPaymentsByMerchantId | PaymentGateway.Repositories/PaymentRepository.cs:28-31 | Returns the merchant's list: the stored records of that merchant, in store order and with their multiplicity. |
| Repositories.PaymentRepository.GetPaymentByIds | PaymentGateway.Repositories/PaymentRepository.cs:33-36 | Returns nothing if and only if no stored record has both ids. Otherwise it returns the earliest stored record with both ids. |
| Repositories.MerchantRepository.constructor | PaymentGateway.Repositories/MerchantRepository.cs:10 | The store starts empty. |
| Repositories.MerchantRepository.SaveMerchant | PaymentGateway.Repositories/MerchantRepository.cs:12-17 | Appends exactly the merchant at the end, without deduplication, and leaves earlier merchants unchanged. |
| Repositories.MerchantRepository.GetAllMerchants | PaymentGateway.Repositories/MerchantRepository.cs:19-22 | Returns every saved merchant in insertion order. |
| Services.AsServiceException | PaymentGateway.Services/BankService.cs:23-27 | The wrapped exception is a ServiceException with the same message. |
| Services.AsServiceExceptionIdempotent | PaymentGateway.Services/PaymentService.cs:27-31 | Wrapping again changes nothing, so a message survives both service layers. |
| Services.BankServiceCall | PaymentGateway.Services/BankService.cs:14-28 | At most one bank request is sent, and every failure is a ServiceException. |
| Services.BankServiceCallSends | PaymentGateway.Services/BankService.cs:18-21 | Exactly one request is sent if and only if there is a card, and that request is the converted request. The client's answer, declined or not, is returned unchanged. A failure keeps the message of the conversion or client failure. |
| Services.BankService.GetBankResponse | PaymentGateway.Services/BankService.cs:14-28 | The endpoint's record grows by exactly the requests the call sends, and the result is the call's result. |
| Services.PaymentServiceCall | PaymentGateway.Services/PaymentService.cs:17-32 | At most one record is saved, and one is saved exactly when the call passes. Every failure is a ServiceException. |
| Services.PaymentServiceCallSaves | PaymentGateway.Services/PaymentService.cs:21-24 | The call passes if and only if the bank answered and the record could be built. The one saved record is that record, with the fresh id and the request's merchant, amount and currency. A declined answer is saved with status Declined. |
| Services.BankFailureMessageSurvives | PaymentGateway.Services/PaymentService.cs:21-31 | A bank failure reaches the caller as a ServiceException with the client's own message, and nothing is saved. |
| Services.PaymentService.ProcessPayment | PaymentGateway.Services/PaymentService.cs:17-32 | The endpoint's record and the store grow by exactly what the call sends and saves. Only the store and the endpoint change. |
| Services.MerchantService.CreateMerchant | PaymentGateway.Services/MerchantService.cs:14-25 | Appends exactly one merchant, with the fresh id and the given name unchanged (no validation of the name). |
| Controllers.CreatePayment | src/PaymentGateway.Api/Controllers/PaymentController.cs:56-80 | The create endpoint answers NoContent, BadRequest, or 500 "Error creating payment.". It answers NoContent if and only if one payment was saved. |
| Controllers.RouteMerchantIdWins | src/PaymentGateway.Api/Controllers/PaymentController.cs:59 | The body's merchant id is ignored. Every saved record carries the route's merchant id. |
| Controllers.InvalidRequestIsNotProcessed | src/PaymentGateway.Api/Controllers/PaymentController.cs:63-67 | A rejected request sends nothing and saves nothing. It answers BadRequest with the validator's non-empty message, or 500 if the validator threw. |
| Controllers.ValidRequestIsSentOnce | src/PaymentGateway.Api/Controllers/PaymentController.cs:69-72 | An accepted request is sent to the bank exactly once, as its converted request. The answer is NoContent if and only if the bank call succeeded, and the saved status is the bank's decision. |
| Controllers.PaymentController.GetAllPaymentsAsync | src/PaymentGateway.Api/Controllers/PaymentController.cs:22-28 | Always Ok with every stored payment, even when the store is empty. |
| Controllers.PaymentController.GetPaymentByIdsAsync | src/PaymentGateway.Api/Controllers/PaymentController.cs:30-41 | Ok with the earliest stored payment having both ids if one exists. Otherwise exactly NotFound("Payment not found."). |
| Controllers.PaymentController.GetPaymentsByMerchantIdAsync | src/PaymentGateway.Api/Controllers/PaymentController.cs:43-54 | Ok with the merchant's payments, in store order, if there are any. Otherwise exactly NotFound("No payments found."). |
| Controllers.PaymentController.CreatePaymentAsync | src/PaymentGateway.Api/Controllers/PaymentController.cs:56-80 | With the controller and the service sharing one store, the bank endpoint's record and that store change by exactly what `CreatePayment` sends and saves, and the result is its result. |
| Controllers.SampleCreatePayment | src/PaymentGateway.Api/Controllers/PaymentController.cs:56-80 | For the sample request with a bank answering 200, one bank request (number, "12/2030", "USD", 100, "123") is sent. The record with the last four digits and the bank's decision is saved, and the answer is NoContent. |
| Controllers.NewGateway | src/PaymentGateway.Api/Program.cs:17-18 | At start-up the controller and the payment service share one fresh, empty payment store, and nothing has been posted to the bank. |
| Controllers.SamplePaymentScenario | src/PaymentGateway.Api/Controllers/PaymentController.cs:30-80 | End to end on a fresh gateway: creating the sample payment answers NoContent after one bank request. The payment is then found by its ids, and it is the only one listed for its merchant. |

## Left out

- HTTP and JSON are not modelled. The POST to the bank is an injected answer function (status code and parsed body, or a transport failure), and reading the JSON body is the `Body` datatype. Base-address set-up, content negotiation and logging are not part of this model. Logging has no observable effect.
- async/`Task` and concurrency are not modelled. The singleton stores are shared `List`s that concurrent requests could append to; the model runs one call at a time.
- Controllers.PaymentController.GetAllPaymentsAsync (and the other queries) returns the stored sequence as a value. In C#, they return the live `List` (or a lazy `Where` over it), which later saves would change.
- Clients.BankApiClient.ProcessPayment: exceptions other than the ones modelled are not modelled, for example a cancelled request or an invalid base address. Their exact runtime texts are not known here.
- Common.Message: the runtime texts for NullReference and ArgumentOutOfRange are the standard English ones. Culture-specific texts are not modelled.
- `DateTime.Now` is read three times in the expiry rules. The model reads it once (`Today`), so a call made as the month changes is not modelled.
- `Environment.NewLine` and the names of the `Currency` enumeration are parameters. That enumeration is not part of this model.
- Validators.EqualsIgnoreCase folds only ASCII letters. Ordinal case-insensitive comparison of other characters is not modelled; currency names are ASCII codes.
- String lengths are counted in Dafny characters, not UTF-16 code units, so the 16-character and 3-character rules differ for characters outside the Basic Multilingual Plane.
- The source's "Amount must be supplied" rule compares a non-nullable `int` with null. It can never fire, so it has no check in the model.
- A null request body at the controller is not modelled. The source would throw at the `MerchantId` assignment, outside the try block, and the framework's model binding rejects a missing body before that. The services always receive a request.
- `Guid.Parse` of the route value is not modelled. The route constraint `{merchantId:guid}` guarantees the value parses, so the route merchant id is a `Guid` parameter.
- `Guid.NewGuid()` is a parameter `id`. Uniqueness of fresh ids is not assumed, and the repository lemmas do not need it.
- MerchantController, the interfaces, Swagger and the dependency-injection set-up are not modelled. `NewGateway` stands for the one wiring fact the model needs: the controller and the payment service share one payment store.
- Helpers.GetExpiryDate: `ToString("D2")` and `ToString()` are modelled with '-' as the negative sign, which is the invariant culture's. A culture with another negative sign would change the text only for a negative month or year, and the validator rejects those before any conversion.
- The AutoMapper configuration is modelled as the field-by-field copy it is configured to be (`ToRepositoryModel`).
- The validator's digits rule is the regular expression, not "digits only". So a CVV "1.5" or "-12", a card number such as "-123456789012345", and either value followed by one line feed pass that rule. This is what the pattern says, and the model keeps it.
