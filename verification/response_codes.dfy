/** Classification of the merchant endpoint's answer and the payment-error
    message built from its error code. */
module ResponseCodes {
  import opened Values

  /** The JSON body of the answer. `success` is the `success` field when it is a
      boolean; `code` is the `code` field when it is a string. */
  datatype ResponseData = ResponseData(success: Option<bool>, code: Option<string>)

  datatype Category =
    | Success
    | PaymentErrorPremium
    | PaymentErrorAmount
    | PaymentErrorUnknown
    | InvalidPin
    | InternalError
    | OtherError

  const PremiumDisabledCode: string := "DCB_DISABLED_PREMIUM_SERVICES"
  const AmountLimitCode: string := "AMOUNT_LIMIT_EXCEEDED"
  const UnknownCode: string := "UNKNOWN"

  /** `data && data.success === true` */
  predicate SucceededBody(data: Option<ResponseData>)
  {
    data.Some? && data.value.success == Some(true)
  }

  /** `data?.code || 'UNKNOWN'`: the error code, with an absent or empty code read as UNKNOWN. */
  function ErrorCode(data: Option<ResponseData>): (r: string)
    ensures r != ""
    ensures data.Some? && Truthy(data.value.code) ==> r == data.value.code.value
    ensures !(data.Some? && Truthy(data.value.code)) ==> r == UnknownCode
  {
    if data.Some? && Truthy(data.value.code) then data.value.code.value else UnknownCode
  }

  /** The category of an answer; the status decides first, the body only for 200.
      Each category is characterised by the status and body that produce it. */
  function Classify(status: int, data: Option<ResponseData>): (r: Category)
    ensures r == Success <==> status == 200 && SucceededBody(data)
    ensures r == PaymentErrorPremium <==>
              status == 200 && !SucceededBody(data) && ErrorCode(data) == PremiumDisabledCode
    ensures r == PaymentErrorAmount <==>
              status == 200 && !SucceededBody(data) && ErrorCode(data) == AmountLimitCode
    ensures r == PaymentErrorUnknown <==>
              status == 200 && !SucceededBody(data)
              && ErrorCode(data) != PremiumDisabledCode && ErrorCode(data) != AmountLimitCode
    ensures r == InvalidPin <==> status == 400
    ensures r == InternalError <==> status == 500
    ensures r == OtherError <==> status != 200 && status != 400 && status != 500
  {
    if status == 200 then
      if SucceededBody(data) then Success
      else
        var errorCode := ErrorCode(data);
        if errorCode == PremiumDisabledCode then PaymentErrorPremium
        else if errorCode == AmountLimitCode then PaymentErrorAmount
        else PaymentErrorUnknown
    else if status == 400 then
      // the source tests for DCB_INVALID_PIN here, but both branches give the same category
      if data.Some? && data.value.code == Some("DCB_INVALID_PIN") then InvalidPin else InvalidPin
    else if status == 500 then InternalError
    else OtherError
  }

  /** An answer with status 200 and no usable body (absent, or without a code) is
      an unknown payment error. */
  lemma MissingCodeIsUnknownPaymentError(data: Option<ResponseData>)
    requires !SucceededBody(data) && !(data.Some? && Truthy(data.value.code))
    ensures Classify(200, data) == PaymentErrorUnknown
  {
  }

  /** Outside status 200 the body is never consulted. */
  lemma BodyMattersOnlyFor200(status: int, d1: Option<ResponseData>, d2: Option<ResponseData>)
    requires status != 200
    ensures Classify(status, d1) == Classify(status, d2)
  {
  }

  /** The test table of the classifier. */
  lemma ClassifyExamples()
    ensures Classify(200, Some(ResponseData(Some(true), None))) == Success
    ensures Classify(200, Some(ResponseData(Some(false), Some(PremiumDisabledCode)))) == PaymentErrorPremium
    ensures Classify(200, Some(ResponseData(Some(false), Some(AmountLimitCode)))) == PaymentErrorAmount
    ensures Classify(200, Some(ResponseData(Some(false), Some(UnknownCode)))) == PaymentErrorUnknown
    ensures Classify(400, Some(ResponseData(Some(false), Some("DCB_INVALID_PIN")))) == InvalidPin
    ensures Classify(500, Some(ResponseData(Some(false), Some(UnknownCode)))) == InternalError
  {
  }

  const PaymentErrorPrefix: string := "Kod poprawny, ale wystąpił błąd płatności. "
  const PremiumDisabledText: string := "Usługa premium jest wyłączona."
  const AmountLimitText: string := "Przekroczono limit kwoty."
  const TryLaterText: string := "Spróbuj ponownie później."

  /** The spoken message for a payment error: the fixed prefix and a sentence chosen by the code. */
  function PaymentErrorMessage(code: string): (r: string)
    ensures |r| > |PaymentErrorPrefix| && r[..|PaymentErrorPrefix|] == PaymentErrorPrefix
    ensures r[|PaymentErrorPrefix|..] in {PremiumDisabledText, AmountLimitText, TryLaterText}
    ensures code != PremiumDisabledCode && code != AmountLimitCode ==>
              r[|PaymentErrorPrefix|..] == TryLaterText
  {
    var suffix :=
      if code == PremiumDisabledCode then PremiumDisabledText
      else if code == AmountLimitCode then AmountLimitText
      else TryLaterText;
    PaymentErrorPrefix + suffix
  }

  /** The message and the classifier agree: for a 200 answer that is not a
      success, the category fixes the sentence after the prefix. */
  lemma MessageMatchesCategory(data: Option<ResponseData>)
    requires !SucceededBody(data)
    ensures var tail := PaymentErrorMessage(ErrorCode(data))[|PaymentErrorPrefix|..];
            && (Classify(200, data) == PaymentErrorPremium <==> tail == PremiumDisabledText)
            && (Classify(200, data) == PaymentErrorAmount <==> tail == AmountLimitText)
            && (Classify(200, data) == PaymentErrorUnknown <==> tail == TryLaterText)
  {
    var code := ErrorCode(data);
    var tail := PaymentErrorMessage(code)[|PaymentErrorPrefix|..];
    assert PremiumDisabledText != AmountLimitText && PremiumDisabledText != TryLaterText
           && AmountLimitText != TryLaterText by {
      assert PremiumDisabledText[0] == 'U' && AmountLimitText[0] == 'P' && TryLaterText[0] == 'S';
    }
  }

  /** The test table of the message builder. */
  lemma MessageExamples()
    ensures PaymentErrorMessage(PremiumDisabledCode) == PaymentErrorPrefix + "Usługa premium jest wyłączona."
    ensures PaymentErrorMessage(AmountLimitCode) == PaymentErrorPrefix + "Przekroczono limit kwoty."
    ensures PaymentErrorMessage(UnknownCode) == PaymentErrorPrefix + "Spróbuj ponownie później."
    ensures PaymentErrorMessage("NON_EXISTENT_CODE") == PaymentErrorPrefix + "Spróbuj ponownie później."
  {
  }
}
