/**
 * The payment request validator. It runs three blocks of rules in a fixed order
 * (request present, card details, request parameters); each block collects its
 * error messages in a list, each list is turned into text, and the three texts
 * are concatenated. The request is valid exactly when the text is empty.
 *
 * Each block is specified by a table of checks (a condition and its message, in
 * rule order) and the messages of the checks that fail; the methods build the
 * same lists step by step, as the source does.
 */
module Validators {
  import opened Wrappers
  import opened Common
  import opened ServiceModels
  import opened NumberPattern

  const PaymentRequestRequired: string := "Payment request must be supplied."
  const CardDetailsRequired: string := "Card details must be supplied."
  const CardNumberRequired: string := "Card number must be supplied."
  const CardNumberLength: string := "Card number must be 16 digits long."
  const CardNumberDigits: string := "Card number must only contain digits."
  const ExpiryMonthRange: string := "Expiry month must be between 1 and 12."
  const ExpiryYearPast: string := "Expiry year cannot be in the past."
  const CardExpired: string := "Card has already expired."
  const CvvLength: string := "CVV must be 3 digits long."
  const CvvDigits: string := "CVV must only contain digits."
  const MerchantIdRequired: string := "MerchantId must be supplied"
  const AmountPositive: string := "Amount must be greater than zero"
  const CurrencyRequired: string := "Currency must be supplied"
  const CurrencyInvalid: string := "Currency supplied is invalid"

  /** Year and month of `DateTime.Now` at the time of the call. */
  datatype Today = Today(year: int, month: int)

  /**
   * What the validator reads from its environment: the clock, the platform's
   * `Environment.NewLine`, and the names of the `Currency` enumeration.
   */
  datatype ValidationContext = ValidationContext(now: Today, newLine: string, currencyNames: seq<string>)

  /** One rule: whether it fails, and the message it adds when it does. */
  datatype Check = Check(failed: bool, message: string)

  /** The messages of the failing checks, in rule order. */
  function Failures(checks: seq<Check>): (errors: seq<string>)
    ensures |errors| <= |checks|
  {
    if |checks| == 0 then []
    else (if checks[0].failed then [checks[0].message] else []) + Failures(checks[1..])
  }

  /** A message is reported exactly when a check with that message fails; none is reported when none fails. */
  lemma {:induction false} FailuresMembers(checks: seq<Check>)
    ensures Failures(checks) == [] <==> forall i :: 0 <= i < |checks| ==> !checks[i].failed
    ensures forall m :: m in Failures(checks) <==>
      exists i :: 0 <= i < |checks| && checks[i].failed && checks[i].message == m
    decreases |checks|
  {
    if |checks| > 0 {
      FailuresMembers(checks[1..]);
      forall m ensures m in Failures(checks) <==>
        exists i :: 0 <= i < |checks| && checks[i].failed && checks[i].message == m
      {
        if m in Failures(checks[1..]) {
          var i :| 0 <= i < |checks[1..]| && checks[1..][i].failed && checks[1..][i].message == m;
          assert checks[i + 1] == checks[1..][i];
        }
        if i :| 0 < i < |checks| && checks[i].failed && checks[i].message == m {
          assert checks[1..][i - 1] == checks[i];
        }
      }
      if Failures(checks[1..]) != [] {
        var i :| 0 <= i < |checks[1..]| && checks[1..][i].failed;
        assert checks[i + 1] == checks[1..][i];
      }
    }
  }

  /** Adding a check at the end adds its message at the end when it fails. */
  lemma {:induction false} FailuresSnoc(checks: seq<Check>, c: Check)
    ensures Failures(checks + [c]) == Note(Failures(checks), c)
    decreases |checks|
  {
    if |checks| == 0 {
      assert checks + [c] == [c];
    } else {
      assert (checks + [c])[1..] == checks[1..] + [c];
      FailuresSnoc(checks[1..], c);
    }
  }

  /** `errors` followed by the message of `c` when `c` fails: one rule of a block. */
  function Note(errors: seq<string>, c: Check): seq<string> {
    if c.failed then errors + [c.message] else errors
  }

  // ---------------------------------------------------------------- block 1

  /** The first block: only the absence of the request. */
  function PaymentRequestErrors(request: Option<PaymentRequest>): seq<string> {
    if request.None? then [PaymentRequestRequired] else []
  }

  method ValidatePaymentRequest(request: Option<PaymentRequest>) returns (errors: seq<string>)
    ensures errors == PaymentRequestErrors(request)
  {
    errors := [];
    if request.None? {
      errors := errors + [PaymentRequestRequired];
    }
    return errors;
  }

  // ---------------------------------------------------------------- block 2

  /**
   * The card rules that run once the card number is present, in source order,
   * up to the point where the CVV is read; the two expiry rules are an
   * if / else-if pair.
   */
  function NumberAndExpiryChecks(number: string, card: Card, now: Today): seq<Check> {
    [ Check(|number| != 16, CardNumberLength),
      Check(!IsNumbersOnly(number), CardNumberDigits),
      Check(card.expiryMonth < 1 || card.expiryMonth > 12, ExpiryMonthRange),
      Check(card.expiryYear as int < now.year, ExpiryYearPast),
      Check(!(card.expiryYear as int < now.year)
            && card.expiryYear as int == now.year && card.expiryMonth as int <= now.month, CardExpired) ]
  }

  /** The CVV rules, which run last. */
  function CvvChecks(cvv: string): seq<Check> {
    [ Check(|cvv| != 3, CvvLength),
      Check(!IsNumbersOnly(cvv), CvvDigits) ]
  }

  function CardChecks(number: string, card: Card, cvv: string, now: Today): seq<Check> {
    NumberAndExpiryChecks(number, card, now) + CvvChecks(cvv)
  }

  /** Seven checks applied one after another collect their failures. */
  lemma FailuresOfSeven(c0: Check, c1: Check, c2: Check, c3: Check, c4: Check, c5: Check, c6: Check)
    ensures Failures([c0] + [c1] + [c2] + [c3] + [c4] + [c5] + [c6])
      == Note(Note(Note(Note(Note(Note(Note([], c0), c1), c2), c3), c4), c5), c6)
  {
    FailuresSnoc([], c0);
    assert [] + [c0] == [c0];
    FailuresSnoc([c0], c1);
    FailuresSnoc([c0] + [c1], c2);
    FailuresSnoc([c0] + [c1] + [c2], c3);
    FailuresSnoc([c0] + [c1] + [c2] + [c3], c4);
    FailuresSnoc([c0] + [c1] + [c2] + [c3] + [c4], c5);
    FailuresSnoc([c0] + [c1] + [c2] + [c3] + [c4] + [c5], c6);
  }

  /** The card rules' failures are what applying them one after another collects. */
  lemma CardChecksOneByOne(number: string, card: Card, cvv: string, now: Today)
    ensures Failures(CardChecks(number, card, cvv, now)) ==
      var year, month := card.expiryYear as int, card.expiryMonth as int;
      Note(Note(Note(Note(Note(Note(Note([],
        Check(|number| != 16, CardNumberLength)),
        Check(!IsNumbersOnly(number), CardNumberDigits)),
        Check(month < 1 || month > 12, ExpiryMonthRange)),
        Check(year < now.year, ExpiryYearPast)),
        Check(!(year < now.year) && year == now.year && month <= now.month, CardExpired)),
        Check(|cvv| != 3, CvvLength)),
        Check(!IsNumbersOnly(cvv), CvvDigits))
  {
    var year, month := card.expiryYear as int, card.expiryMonth as int;
    var c0 := Check(|number| != 16, CardNumberLength);
    var c1 := Check(!IsNumbersOnly(number), CardNumberDigits);
    var c2 := Check(month < 1 || month > 12, ExpiryMonthRange);
    var c3 := Check(year < now.year, ExpiryYearPast);
    var c4 := Check(!(year < now.year) && year == now.year && month <= now.month, CardExpired);
    var c5 := Check(|cvv| != 3, CvvLength);
    var c6 := Check(!IsNumbersOnly(cvv), CvvDigits);
    assert CardChecks(number, card, cvv, now) == [c0] + [c1] + [c2] + [c3] + [c4] + [c5] + [c6];
    FailuresOfSeven(c0, c1, c2, c3, c4, c5, c6);
  }

  /**
   * The rules for a card that is present: a missing or empty number is reported
   * alone (the source returns early); otherwise a null CVV throws when its
   * length is read, after the number and expiry rules have run; with a CVV,
   * every card rule runs.
   */
  function CardErrors(card: Card, now: Today): Result<seq<string>, Exception> {
    if IsNullOrEmpty(card.number) then Success([CardNumberRequired])
    else if card.cvv.None? then Failure(NullReference)
    else Success(Failures(CardChecks(card.number.value, card, card.cvv.value, now)))
  }

  /** The second block: nothing without a request, one message without a card. */
  function CardDetailsErrors(request: Option<PaymentRequest>, now: Today): Result<seq<string>, Exception> {
    if request.None? then Success([])
    else
      match request.value.card
      case None => Success([CardDetailsRequired])
      case Some(card) => CardErrors(card, now)
  }

  method ValidateCardDetails(request: Option<PaymentRequest>, now: Today) returns (result: Result<seq<string>, Exception>)
    ensures result == CardDetailsErrors(request, now)
  {
    var errors: seq<string> := [];
    if request.Some? {
      var card := request.value.card;
      if card.None? {
        errors := errors + [CardDetailsRequired];
        assert errors == [CardDetailsRequired];
      } else {
        result := ValidateCard(card.value, now);
        return result;
      }
    }
    return Success(errors);
  }

  /** The else-branch of the card block, from the card-number rule on. */
  method ValidateCard(c: Card, now: Today) returns (result: Result<seq<string>, Exception>)
    ensures result == CardErrors(c, now)
  {
    var errors: seq<string> := [];
    if IsNullOrEmpty(c.number) {
      errors := errors + [CardNumberRequired];
      assert errors == [CardNumberRequired];
      return Success(errors);
    }
    var number := c.number.value;
    if |number| != 16 {
      errors := errors + [CardNumberLength];
    }
    if !IsNumbersOnly(number) {
      errors := errors + [CardNumberDigits];
    }
    if c.expiryMonth < 1 || c.expiryMonth > 12 {
      errors := errors + [ExpiryMonthRange];
    }
    if c.expiryYear as int < now.year {
      errors := errors + [ExpiryYearPast];
    } else if c.expiryYear as int == now.year && c.expiryMonth as int <= now.month {
      errors := errors + [CardExpired];
    }
    if c.cvv.None? {
      return Failure(NullReference);
    }
    var cvv := c.cvv.value;
    if |cvv| != 3 {
      errors := errors + [CvvLength];
    }
    if !IsNumbersOnly(cvv) {
      errors := errors + [CvvDigits];
    }
    CardChecksOneByOne(number, c, cvv, now);
    return Success(errors);
  }

  // ---------------------------------------------------------------- block 3

  /** `char.ToUpperInvariant` on ASCII letters. */
  function UpperAscii(c: char): char {
    if 'a' <= c <= 'z' then (c as int - 32) as char else c
  }

  /** `string.Equals(a, b, StringComparison.OrdinalIgnoreCase)`. */
  predicate EqualsIgnoreCase(a: string, b: string) {
    |a| == |b| && forall i :: 0 <= i < |a| ==> UpperAscii(a[i]) == UpperAscii(b[i])
  }

  /** Some name of the currency enumeration equals the given code, ignoring case. */
  predicate IsKnownCurrency(names: seq<string>, code: string) {
    exists i :: 0 <= i < |names| && EqualsIgnoreCase(names[i], code)
  }

  /**
   * The request-parameter rules in source order. The source's "Amount must be
   * supplied" rule compares a non-nullable `int` with null and can never fire,
   * so it has no check here.
   */
  function ParamChecks(request: PaymentRequest, currencyNames: seq<string>): seq<Check> {
    [ Check(request.merchantId == EmptyGuid, MerchantIdRequired),
      Check(request.amount <= 0, AmountPositive),
      Check(IsNullOrEmpty(request.currency), CurrencyRequired),
      Check(!IsNullOrEmpty(request.currency) && !IsKnownCurrency(currencyNames, request.currency.value),
            CurrencyInvalid) ]
  }

  /** Four checks applied one after another collect their failures. */
  lemma FailuresOfFour(c0: Check, c1: Check, c2: Check, c3: Check)
    ensures Failures([c0] + [c1] + [c2] + [c3]) == Note(Note(Note(Note([], c0), c1), c2), c3)
  {
    FailuresSnoc([], c0);
    assert [] + [c0] == [c0];
    FailuresSnoc([c0], c1);
    FailuresSnoc([c0] + [c1], c2);
    FailuresSnoc([c0] + [c1] + [c2], c3);
  }

  /** The parameter rules' failures are what applying them one after another collects. */
  lemma ParamChecksOneByOne(request: PaymentRequest, currencyNames: seq<string>)
    ensures Failures(ParamChecks(request, currencyNames)) ==
      Note(Note(Note(Note([],
        Check(request.merchantId == EmptyGuid, MerchantIdRequired)),
        Check(request.amount <= 0, AmountPositive)),
        Check(IsNullOrEmpty(request.currency), CurrencyRequired)),
        Check(!IsNullOrEmpty(request.currency) && !IsKnownCurrency(currencyNames, request.currency.value), CurrencyInvalid))
  {
    var c0 := Check(request.merchantId == EmptyGuid, MerchantIdRequired);
    var c1 := Check(request.amount <= 0, AmountPositive);
    var c2 := Check(IsNullOrEmpty(request.currency), CurrencyRequired);
    var c3 := Check(!IsNullOrEmpty(request.currency) && !IsKnownCurrency(currencyNames, request.currency.value), CurrencyInvalid);
    assert ParamChecks(request, currencyNames) == [c0] + [c1] + [c2] + [c3];
    FailuresOfFour(c0, c1, c2, c3);
  }

  /** The third block: nothing without a request, otherwise the failing parameter rules. */
  function RequestParamErrors(request: Option<PaymentRequest>, currencyNames: seq<string>): seq<string> {
    if request.None? then [] else Failures(ParamChecks(request.value, currencyNames))
  }

  method ValidateRequestParams(request: Option<PaymentRequest>, currencyNames: seq<string>) returns (errors: seq<string>)
    ensures errors == RequestParamErrors(request, currencyNames)
  {
    errors := [];
    if request.Some? {
      var r := request.value;
      if r.merchantId == EmptyGuid {
        errors := errors + [MerchantIdRequired];
      }
      if r.amount <= 0 {
        errors := errors + [AmountPositive];
      }
      if IsNullOrEmpty(r.currency) {
        errors := errors + [CurrencyRequired];
      } else if !IsKnownCurrency(currencyNames, r.currency.value) {
        errors := errors + [CurrencyInvalid];
      }
      ParamChecksOneByOne(r, currencyNames);
    }
    return errors;
  }

  // ---------------------------------------------------------------- messages

  /** `string.Join(separator, parts)`. */
  function Join(parts: seq<string>, separator: string): string {
    if |parts| == 0 then ""
    else if |parts| == 1 then parts[0]
    else parts[0] + separator + Join(parts[1..], separator)
  }

  /** Every error but the last with a newline appended. */
  function WithTrailingNewLines(errors: seq<string>, newLine: string): (r: seq<string>)
    ensures |r| == |errors|
  {
    seq(|errors|, i requires 0 <= i < |errors| => if i < |errors| - 1 then errors[i] + newLine else errors[i])
  }

  /** The text of one block's errors. */
  function BuildErrorMessage(errors: seq<string>, newLine: string): string {
    if |errors| > 0 then Join(WithTrailingNewLines(errors, newLine), newLine) else ""
  }

  /** Within a block, consecutive errors are separated by two newlines. */
  lemma {:induction false} BuildErrorMessageSeparatesByTwoNewLines(errors: seq<string>, newLine: string)
    ensures BuildErrorMessage(errors, newLine) == Join(errors, newLine + newLine)
    decreases |errors|
  {
    if |errors| >= 2 {
      var d := WithTrailingNewLines(errors, newLine);
      assert d[1..] == WithTrailingNewLines(errors[1..], newLine);
      BuildErrorMessageSeparatesByTwoNewLines(errors[1..], newLine);
      assert d[0] + newLine == errors[0] + (newLine + newLine);
    }
  }

  lemma {:induction false} JoinLength(parts: seq<string>, separator: string)
    requires |parts| > 0
    ensures |Join(parts, separator)| >= |parts[0]|
  {
  }

  /** When no error text is empty, a block's text is empty exactly when the block found no error. */
  lemma BuildErrorMessageEmptyIff(errors: seq<string>, newLine: string)
    requires forall e :: e in errors ==> e != ""
    ensures BuildErrorMessage(errors, newLine) == "" <==> errors == []
    ensures |errors| == 1 ==> BuildErrorMessage(errors, newLine) == errors[0]
  {
    if |errors| > 0 {
      BuildErrorMessageSeparatesByTwoNewLines(errors, newLine);
      JoinLength(errors, newLine + newLine);
      assert errors[0] in errors;
    }
  }

  // ---------------------------------------------------------------- Validate

  /** The validator's result as a value: a crash, or the three texts concatenated. */
  function Validation(request: Option<PaymentRequest>, context: ValidationContext): Result<ValidationResult, Exception> {
    match CardDetailsErrors(request, context.now)
    case Failure(e) => Failure(e)
    case Success(cardErrors) =>
      var message :=
        BuildErrorMessage(PaymentRequestErrors(request), context.newLine)
        + BuildErrorMessage(cardErrors, context.newLine)
        + BuildErrorMessage(RequestParamErrors(request, context.currencyNames), context.newLine);
      Success(ValidationResult(message == "", message))
  }

  method Validate(request: Option<PaymentRequest>, context: ValidationContext) returns (result: Result<ValidationResult, Exception>)
    ensures result == Validation(request, context)
    ensures result.Success? ==> (result.value.success <==> result.value.message == "")
  {
    var requestErrors := ValidatePaymentRequest(request);
    var requestText := BuildErrorMessage(requestErrors, context.newLine);
    var cardErrors := ValidateCardDetails(request, context.now);
    if cardErrors.Failure? {
      return Failure(cardErrors.error);
    }
    var cardText := BuildErrorMessage(cardErrors.value, context.newLine);
    var paramErrors := ValidateRequestParams(request, context.currencyNames);
    var message := requestText + cardText + BuildErrorMessage(paramErrors, context.newLine);
    return Success(ValidationResult(message == "", message));
  }

  // ---------------------------------------------------------------- properties

  /** Exactly one failing check: its message is the block's only error. */
  lemma {:induction false} FailuresOnly(checks: seq<Check>, i: nat)
    requires i < |checks| && checks[i].failed
    requires forall j :: 0 <= j < |checks| && j != i ==> !checks[j].failed
    ensures Failures(checks) == [checks[i].message]
    decreases |checks|
  {
    if i == 0 {
      FailuresMembers(checks[1..]);
      assert forall j :: 0 <= j < |checks[1..]| ==> checks[1..][j] == checks[j + 1];
    } else {
      assert forall j :: 0 <= j < |checks[1..]| ==> checks[1..][j] == checks[j + 1];
      FailuresOnly(checks[1..], i - 1);
    }
  }

  /** A block whose messages are all non-empty has empty text exactly when no check fails. */
  lemma TextEmptyIff(checks: seq<Check>, separator: string)
    requires forall i :: 0 <= i < |checks| ==> checks[i].message != ""
    ensures Join(Failures(checks), separator) == "" <==> forall i :: 0 <= i < |checks| ==> !checks[i].failed
  {
    FailuresMembers(checks);
    var errors := Failures(checks);
    if errors != [] {
      JoinLength(errors, separator);
      assert errors[0] in errors;
    }
  }

  /** A missing request is reported alone, with exactly the source's message. */
  lemma NullRequestIsRejected(context: ValidationContext)
    ensures Validation(None, context) == Success(ValidationResult(false, PaymentRequestRequired))
  {
    BuildErrorMessageEmptyIff([PaymentRequestRequired], context.newLine);
    assert PaymentRequestRequired + "" + "" == PaymentRequestRequired;
  }

  /** A missing card is reported first, followed by the text of the parameter rules. */
  lemma MissingCardIsRejected(request: PaymentRequest, context: ValidationContext)
    requires request.card.None?
    ensures Validation(Some(request), context).Success?
    ensures var r := Validation(Some(request), context).value;
      !r.success && r.message == CardDetailsRequired
        + Join(Failures(ParamChecks(request, context.currencyNames)), context.newLine + context.newLine)
  {
    BuildErrorMessageEmptyIff([CardDetailsRequired], context.newLine);
    BuildErrorMessageSeparatesByTwoNewLines(Failures(ParamChecks(request, context.currencyNames)), context.newLine);
  }

  /**
   * A missing or empty card number is reported without looking at the other
   * card fields, so a request without a CVV does not crash in that case.
   */
  lemma MissingCardNumberIsRejected(request: PaymentRequest, context: ValidationContext)
    requires request.card.Some? && IsNullOrEmpty(request.card.value.number)
    ensures Validation(Some(request), context).Success?
    ensures var r := Validation(Some(request), context).value;
      !r.success && r.message == CardNumberRequired
        + Join(Failures(ParamChecks(request, context.currencyNames)), context.newLine + context.newLine)
  {
    BuildErrorMessageEmptyIff([CardNumberRequired], context.newLine);
    BuildErrorMessageSeparatesByTwoNewLines(Failures(ParamChecks(request, context.currencyNames)), context.newLine);
  }

  /** With a card number present and no CVV, reading the CVV's length throws. */
  lemma MissingCvvCrashes(request: PaymentRequest, context: ValidationContext)
    requires request.card.Some? && !IsNullOrEmpty(request.card.value.number) && request.card.value.cvv.None?
    ensures Validation(Some(request), context) == Failure(NullReference)
  {
  }

  /**
   * With a card number and a CVV present, the text is the card block's errors
   * followed by the parameter block's errors, each joined by two newlines.
   */
  lemma CompleteCardMessage(request: PaymentRequest, context: ValidationContext)
    requires request.card.Some? && !IsNullOrEmpty(request.card.value.number) && request.card.value.cvv.Some?
    ensures var card := request.card.value;
      var m := Join(Failures(CardChecks(card.number.value, card, card.cvv.value, context.now)), context.newLine + context.newLine)
        + Join(Failures(ParamChecks(request, context.currencyNames)), context.newLine + context.newLine);
      Validation(Some(request), context) == Success(ValidationResult(m == "", m))
  {
    var card := request.card.value;
    BuildErrorMessageSeparatesByTwoNewLines(Failures(CardChecks(card.number.value, card, card.cvv.value, context.now)), context.newLine);
    BuildErrorMessageSeparatesByTwoNewLines(Failures(ParamChecks(request, context.currencyNames)), context.newLine);
    assert BuildErrorMessage(PaymentRequestErrors(Some(request)), context.newLine) == "";
    var a := BuildErrorMessage(Failures(CardChecks(card.number.value, card, card.cvv.value, context.now)), context.newLine);
    var b := BuildErrorMessage(Failures(ParamChecks(request, context.currencyNames)), context.newLine);
    assert "" + a + b == a + b;
  }

  /** Every card rule passes: the conditions under which the card block reports nothing. */
  predicate CardAcceptable(card: Card, now: Today) {
    && card.number.Some? && |card.number.value| == 16 && IsNumbersOnly(card.number.value)
    && 1 <= card.expiryMonth <= 12
    && (card.expiryYear as int > now.year || (card.expiryYear as int == now.year && card.expiryMonth as int > now.month))
    && card.cvv.Some? && |card.cvv.value| == 3 && IsNumbersOnly(card.cvv.value)
  }

  /** Every request-parameter rule passes. */
  predicate ParamsAcceptable(request: PaymentRequest, currencyNames: seq<string>) {
    && request.merchantId != EmptyGuid
    && request.amount > 0
    && !IsNullOrEmpty(request.currency)
    && IsKnownCurrency(currencyNames, request.currency.value)
  }

  /** No card rule fails exactly when the card is acceptable. */
  lemma CardChecksPassIff(card: Card, now: Today)
    requires !IsNullOrEmpty(card.number) && card.cvv.Some?
    ensures var checks := CardChecks(card.number.value, card, card.cvv.value, now);
      (forall i :: 0 <= i < |checks| ==> !checks[i].failed) <==> CardAcceptable(card, now)
  {
    var checks := CardChecks(card.number.value, card, card.cvv.value, now);
    if !CardAcceptable(card, now) {
      if |card.number.value| != 16 { assert checks[0].failed; }
      else if !IsNumbersOnly(card.number.value) { assert checks[1].failed; }
      else if !(1 <= card.expiryMonth <= 12) { assert checks[2].failed; }
      else if card.expiryYear as int < now.year { assert checks[3].failed; }
      else if card.expiryYear as int == now.year && card.expiryMonth as int <= now.month { assert checks[4].failed; }
      else if |card.cvv.value| != 3 { assert checks[5].failed; }
      else { assert checks[6].failed; }
    }
  }

  /** No parameter rule fails exactly when the parameters are acceptable. */
  lemma ParamChecksPassIff(request: PaymentRequest, currencyNames: seq<string>)
    ensures var checks := ParamChecks(request, currencyNames);
      (forall i :: 0 <= i < |checks| ==> !checks[i].failed) <==> ParamsAcceptable(request, currencyNames)
  {
    var checks := ParamChecks(request, currencyNames);
    if !ParamsAcceptable(request, currencyNames) {
      if request.merchantId == EmptyGuid { assert checks[0].failed; }
      else if request.amount <= 0 { assert checks[1].failed; }
      else if IsNullOrEmpty(request.currency) { assert checks[2].failed; }
      else { assert checks[3].failed; }
    }
  }

  /** The validator accepts a request, with an empty message, exactly when every rule passes. */
  lemma ValidationAcceptsExactly(request: Option<PaymentRequest>, context: ValidationContext)
    ensures Validation(request, context) == Success(ValidationResult(true, "")) <==>
      && request.Some? && request.value.card.Some?
      && CardAcceptable(request.value.card.value, context.now)
      && ParamsAcceptable(request.value, context.currencyNames)
  {
    if request.None? {
      NullRequestIsRejected(context);
    } else if request.value.card.None? {
      MissingCardIsRejected(request.value, context);
    } else if IsNullOrEmpty(request.value.card.value.number) {
      MissingCardNumberIsRejected(request.value, context);
    } else if request.value.card.value.cvv.Some? {
      var r, card, sep := request.value, request.value.card.value, context.newLine + context.newLine;
      var cardChecks := CardChecks(card.number.value, card, card.cvv.value, context.now);
      var paramChecks := ParamChecks(r, context.currencyNames);
      CompleteCardMessage(r, context);
      TextEmptyIff(cardChecks, sep);
      TextEmptyIff(paramChecks, sep);
      CardChecksPassIff(card, context.now);
      ParamChecksPassIff(r, context.currencyNames);
    }
  }

  /** When every rule but one card rule passes, that rule's message is the whole text. */
  lemma OnlyCardRuleFails(request: PaymentRequest, context: ValidationContext, i: nat)
    requires request.card.Some? && !IsNullOrEmpty(request.card.value.number) && request.card.value.cvv.Some?
    requires ParamsAcceptable(request, context.currencyNames)
    requires var card := request.card.value;
      var checks := CardChecks(card.number.value, card, card.cvv.value, context.now);
      i < |checks| && checks[i].failed && forall j :: 0 <= j < |checks| && j != i ==> !checks[j].failed
    ensures var card := request.card.value;
      Validation(Some(request), context)
        == Success(ValidationResult(false, CardChecks(card.number.value, card, card.cvv.value, context.now)[i].message))
  {
    var card := request.card.value;
    var checks := CardChecks(card.number.value, card, card.cvv.value, context.now);
    var paramChecks := ParamChecks(request, context.currencyNames);
    CompleteCardMessage(request, context);
    FailuresOnly(checks, i);
    ParamChecksPassIff(request, context.currencyNames);
    FailuresMembers(paramChecks);
    assert checks[i].message + "" == checks[i].message;
  }

  // ---------------------------------------------------------------- scenarios

  /**
   * The request the validator's unit tests start from, for a given card number
   * (the tests use 2222405343248879, sixteen digits).
   */
  function SampleRequest(merchantId: Guid, number: string): PaymentRequest {
    PaymentRequest(merchantId, Some(Card(Some(number), 12, 2030, Some("123"))), Some("USD"), 100)
  }

  /**
   * What the scenarios assume: a sixteen-digit card number, a fresh merchant id,
   * a clock after 2000 and before the sample card's expiry (12/2030), and USD among the currency names.
   */
  predicate SampleSetting(merchantId: Guid, number: string, context: ValidationContext) {
    && |number| == 16 && AllDigits(number)
    && merchantId != EmptyGuid
    && 2000 < context.now.year
    && (context.now.year < 2030 || (context.now.year == 2030 && context.now.month < 12))
    && 1 <= context.now.month <= 12
    && IsKnownCurrency(context.currencyNames, "USD")
  }

  lemma LettersInCardNumberAreNotNumeric()
    ensures !IsNumbersOnly("22224E53432488B9")
  {
    ForeignCharacterFails("22224E53432488B9", 5);
  }

  /** The sample request is valid. */
  lemma SampleRequestIsValid(merchantId: Guid, number: string, context: ValidationContext)
    requires SampleSetting(merchantId, number, context)
    ensures Validation(Some(SampleRequest(merchantId, number)), context) == Success(ValidationResult(true, ""))
  {
    DigitsPass(number);
    assert IsNumbersOnly("123");
    ValidationAcceptsExactly(Some(SampleRequest(merchantId, number)), context);
  }

  /** A valid request with its card replaced by one that breaks exactly rule `i` is reported with that rule's message alone. */
  lemma CardChangeBreakingOneRule(request: PaymentRequest, context: ValidationContext, card: Card, i: nat)
    requires Validation(Some(request), context) == Success(ValidationResult(true, ""))
    requires !IsNullOrEmpty(card.number) && card.cvv.Some?
    requires var checks := CardChecks(card.number.value, card, card.cvv.value, context.now);
      i < |checks| && checks[i].failed && forall j :: 0 <= j < |checks| && j != i ==> !checks[j].failed
    ensures Validation(Some(request.(card := Some(card))), context)
      == Success(ValidationResult(false, CardChecks(card.number.value, card, card.cvv.value, context.now)[i].message))
  {
    ValidationAcceptsExactly(Some(request), context);
    OnlyCardRuleFails(request.(card := Some(card)), context, i);
  }

  /** In a valid request, a numeric card number of the wrong length is reported alone. */
  lemma CardNumberOfWrongLength(request: PaymentRequest, context: ValidationContext, number: string)
    requires Validation(Some(request), context) == Success(ValidationResult(true, ""))
    requires number != "" && |number| != 16 && IsNumbersOnly(number)
    ensures request.card.Some?
    ensures Validation(Some(request.(card := Some(request.card.value.(number := Some(number))))), context)
      == Success(ValidationResult(false, CardNumberLength))
  {
    ValidationAcceptsExactly(Some(request), context);
    CardChangeBreakingOneRule(request, context, request.card.value.(number := Some(number)), 0);
  }

  /** In a valid request, a 16-character card number that is not a number is reported alone. */
  lemma CardNumberNotNumeric(request: PaymentRequest, context: ValidationContext, number: string)
    requires Validation(Some(request), context) == Success(ValidationResult(true, ""))
    requires |number| == 16 && !IsNumbersOnly(number)
    ensures request.card.Some?
    ensures Validation(Some(request.(card := Some(request.card.value.(number := Some(number))))), context)
      == Success(ValidationResult(false, CardNumberDigits))
  {
    ValidationAcceptsExactly(Some(request), context);
    CardChangeBreakingOneRule(request, context, request.card.value.(number := Some(number)), 1);
  }

  /** In a valid request, a month above 12 is reported alone. */
  lemma ExpiryMonthTooLarge(request: PaymentRequest, context: ValidationContext, month: Int32)
    requires Validation(Some(request), context) == Success(ValidationResult(true, ""))
    requires month > 12
    ensures request.card.Some?
    ensures Validation(Some(request.(card := Some(request.card.value.(expiryMonth := month)))), context)
      == Success(ValidationResult(false, ExpiryMonthRange))
  {
    ValidationAcceptsExactly(Some(request), context);
    CardChangeBreakingOneRule(request, context, request.card.value.(expiryMonth := month), 2);
  }

  /** In a valid request, a past year is reported alone; the current-month rule does not also fire. */
  lemma ExpiryYearInPast(request: PaymentRequest, context: ValidationContext, year: Int32)
    requires Validation(Some(request), context) == Success(ValidationResult(true, ""))
    requires (year as int) < context.now.year
    ensures request.card.Some?
    ensures Validation(Some(request.(card := Some(request.card.value.(expiryYear := year)))), context)
      == Success(ValidationResult(false, ExpiryYearPast))
  {
    ValidationAcceptsExactly(Some(request), context);
    CardChangeBreakingOneRule(request, context, request.card.value.(expiryYear := year), 3);
  }

  /** In a valid request, a card expiring in the current month is reported as expired, alone. */
  lemma ExpiringThisMonth(request: PaymentRequest, context: ValidationContext)
    requires Validation(Some(request), context) == Success(ValidationResult(true, ""))
    requires 1 <= context.now.month <= 12 && 0 <= context.now.year < 0x8000_0000
    ensures request.card.Some?
    ensures var card := request.card.value.(expiryMonth := context.now.month as Int32, expiryYear := context.now.year as Int32);
      Validation(Some(request.(card := Some(card))), context) == Success(ValidationResult(false, CardExpired))
  {
    ValidationAcceptsExactly(Some(request), context);
    var card := request.card.value.(expiryMonth := context.now.month as Int32, expiryYear := context.now.year as Int32);
    CardChangeBreakingOneRule(request, context, card, 4);
  }

  /** In a valid request, a numeric CVV of the wrong length is reported alone. */
  lemma CvvOfWrongLength(request: PaymentRequest, context: ValidationContext, cvv: string)
    requires Validation(Some(request), context) == Success(ValidationResult(true, ""))
    requires |cvv| != 3 && IsNumbersOnly(cvv)
    ensures request.card.Some?
    ensures Validation(Some(request.(card := Some(request.card.value.(cvv := Some(cvv))))), context)
      == Success(ValidationResult(false, CvvLength))
  {
    ValidationAcceptsExactly(Some(request), context);
    CardChangeBreakingOneRule(request, context, request.card.value.(cvv := Some(cvv)), 5);
  }

  /** In a valid request, a three-character CVV that is not a number is reported alone. */
  lemma CvvNotNumeric(request: PaymentRequest, context: ValidationContext, cvv: string)
    requires Validation(Some(request), context) == Success(ValidationResult(true, ""))
    requires |cvv| == 3 && !IsNumbersOnly(cvv)
    ensures request.card.Some?
    ensures Validation(Some(request.(card := Some(request.card.value.(cvv := Some(cvv))))), context)
      == Success(ValidationResult(false, CvvDigits))
  {
    ValidationAcceptsExactly(Some(request), context);
    CardChangeBreakingOneRule(request, context, request.card.value.(cvv := Some(cvv)), 6);
  }

  /** The validator's unit-test cases on the card number and the expiry, each a one-field change of the sample request. */
  lemma SampleNumberAndExpiryMutations(merchantId: Guid, number: string, context: ValidationContext)
    requires SampleSetting(merchantId, number, context)
    ensures var r, card := SampleRequest(merchantId, number), SampleRequest(merchantId, number).card.value;
      && Validation(Some(r.(card := Some(card.(number := Some("123"))))), context)
           == Success(ValidationResult(false, CardNumberLength))
      && Validation(Some(r.(card := Some(card.(number := Some("22224E53432488B9"))))), context)
           == Success(ValidationResult(false, CardNumberDigits))
      && Validation(Some(r.(card := Some(card.(expiryMonth := 20)))), context)
           == Success(ValidationResult(false, ExpiryMonthRange))
      && Validation(Some(r.(card := Some(card.(expiryYear := 2000)))), context)
           == Success(ValidationResult(false, ExpiryYearPast))
  {
    var r := SampleRequest(merchantId, number);
    SampleRequestIsValid(merchantId, number, context);
    assert IsNumbersOnly("123");
    LettersInCardNumberAreNotNumeric();
    CardNumberOfWrongLength(r, context, "123");
    CardNumberNotNumeric(r, context, "22224E53432488B9");
    ExpiryMonthTooLarge(r, context, 20);
    ExpiryYearInPast(r, context, 2000);
  }

  /** The validator's unit-test cases on the CVV, each a one-field change of the sample request. */
  lemma SampleCvvMutations(merchantId: Guid, number: string, context: ValidationContext)
    requires SampleSetting(merchantId, number, context)
    ensures var r, card := SampleRequest(merchantId, number), SampleRequest(merchantId, number).card.value;
      && Validation(Some(r.(card := Some(card.(cvv := Some("1234"))))), context)
           == Success(ValidationResult(false, CvvLength))
      && Validation(Some(r.(card := Some(card.(cvv := Some("12E"))))), context)
           == Success(ValidationResult(false, CvvDigits))
  {
    var r := SampleRequest(merchantId, number);
    SampleRequestIsValid(merchantId, number, context);
    assert IsNumbersOnly("1234") && !IsNumbersOnly("12E");
    CvvOfWrongLength(r, context, "1234");
    CvvNotNumeric(r, context, "12E");
  }

  /**
   * The digits rule is the number pattern, not "digits only": a CVV with a
   * decimal point, or with a final line feed, keeps the sample request valid.
   */
  lemma PatternAdmitsNonDigitCvvs(merchantId: Guid, number: string, context: ValidationContext)
    requires SampleSetting(merchantId, number, context)
    ensures var r, card := SampleRequest(merchantId, number), SampleRequest(merchantId, number).card.value;
      && Validation(Some(r.(card := Some(card.(cvv := Some("1.5"))))), context) == Success(ValidationResult(true, ""))
      && Validation(Some(r.(card := Some(card.(cvv := Some("12\n"))))), context) == Success(ValidationResult(true, ""))
  {
    var r, card := SampleRequest(merchantId, number), SampleRequest(merchantId, number).card.value;
    DigitsPass(number);
    assert IsNumbersOnly("1.5") && IsNumbersOnly("12\n");
    ValidationAcceptsExactly(Some(r.(card := Some(card.(cvv := Some("1.5"))))), context);
    ValidationAcceptsExactly(Some(r.(card := Some(card.(cvv := Some("12\n"))))), context);
  }

  /** The currency names are compared without regard to ASCII case. */
  lemma CurrencyCaseIgnored(names: seq<string>, code: string, other: string)
    requires IsKnownCurrency(names, code) && EqualsIgnoreCase(code, other)
    ensures IsKnownCurrency(names, other)
  {
    var i :| 0 <= i < |names| && EqualsIgnoreCase(names[i], code);
    assert EqualsIgnoreCase(names[i], other);
  }

  /** Exactly two failing checks: their messages, in rule order. */
  lemma {:induction false} FailuresPair(checks: seq<Check>, i: nat, j: nat)
    requires i < j < |checks| && checks[i].failed && checks[j].failed
    requires forall k :: 0 <= k < |checks| && k != i && k != j ==> !checks[k].failed
    ensures Failures(checks) == [checks[i].message, checks[j].message]
    decreases |checks|
  {
    assert forall k :: 0 <= k < |checks[1..]| ==> checks[1..][k] == checks[k + 1];
    if i == 0 {
      FailuresOnly(checks[1..], j - 1);
    } else {
      FailuresPair(checks[1..], i - 1, j - 1);
    }
  }

  /**
   * In a valid request, a card number that is neither sixteen characters long
   * nor a number breaks both number rules, and the two messages are separated
   * by two newlines.
   */
  lemma CardNumberShortAndNotNumeric(request: PaymentRequest, context: ValidationContext, number: string)
    requires Validation(Some(request), context) == Success(ValidationResult(true, ""))
    requires number != "" && |number| != 16 && !IsNumbersOnly(number)
    ensures request.card.Some?
    ensures Validation(Some(request.(card := Some(request.card.value.(number := Some(number))))), context)
      == Success(ValidationResult(false, CardNumberLength + context.newLine + context.newLine + CardNumberDigits))
  {
    ValidationAcceptsExactly(Some(request), context);
    var card := request.card.value.(number := Some(number));
    var checks := CardChecks(number, card, card.cvv.value, context.now);
    assert checks[0].failed && checks[1].failed;
    assert forall k :: 2 <= k < |checks| ==> !checks[k].failed;
    OnlyTwoCardRulesFail(request.(card := Some(card)), context, 0, 1);
  }

  /** A request whose parameters pass and whose card breaks exactly rules `i` and `j` is reported with both messages, in rule order. */
  lemma OnlyTwoCardRulesFail(request: PaymentRequest, context: ValidationContext, i: nat, j: nat)
    requires request.card.Some? && !IsNullOrEmpty(request.card.value.number) && request.card.value.cvv.Some?
    requires ParamsAcceptable(request, context.currencyNames)
    requires var card := request.card.value;
      var checks := CardChecks(card.number.value, card, card.cvv.value, context.now);
      && i < j < |checks| && checks[i].failed && checks[j].failed
      && forall k :: 0 <= k < |checks| && k != i && k != j ==> !checks[k].failed
    ensures var card := request.card.value;
      var checks := CardChecks(card.number.value, card, card.cvv.value, context.now);
      Validation(Some(request), context)
        == Success(ValidationResult(false, checks[i].message + context.newLine + context.newLine + checks[j].message))
  {
    var card := request.card.value;
    var checks := CardChecks(card.number.value, card, card.cvv.value, context.now);
    var paramChecks := ParamChecks(request, context.currencyNames);
    var nl := context.newLine;
    CompleteCardMessage(request, context);
    FailuresPair(checks, i, j);
    ParamChecksPassIff(request, context.currencyNames);
    FailuresMembers(paramChecks);
    var text := checks[i].message + (nl + nl) + checks[j].message;
    assert Join(Failures(checks), nl + nl) == text;
    assert Join(Failures(paramChecks), nl + nl) == "";
    assert text + "" == checks[i].message + nl + nl + checks[j].message;
  }
}
