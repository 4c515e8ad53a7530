/**
 * The card form of `usePaymentCard`: brand detection, the choice between the
 * payment provider's card element and the mock form, tokenization and
 * payment confirmation. Provider SDK answers are parameters.
 */
module PaymentCard {
  import opened Wrappers
  import opened JsText
  import opened ErrorHandler
  import opened CheckoutTypes

  datatype Mode = MockMode | StripeMode

  /** The form's reactive state. */
  datatype CardForm = CardForm(
    cardholder: string, number: string, exp: string, cvc: string,
    processing: bool, error: Option<string>, mode: Mode)

  /** `detectBrand`: prefix rules /^4/, /^5[1-5]/, /^3[47]/. */
  function DetectBrand(num: string): (brand: string)
    ensures brand == "visa" <==> |num| >= 1 && num[0] == '4'
    ensures brand == "mastercard" <==> |num| >= 2 && num[0] == '5' && '1' <= num[1] <= '5'
    ensures brand == "amex" <==> |num| >= 2 && num[0] == '3' && (num[1] == '4' || num[1] == '7')
    ensures brand in {"visa", "mastercard", "amex", "unknown"}
  {
    if |num| >= 1 && num[0] == '4' then "visa"
    else if |num| >= 2 && num[0] == '5' && '1' <= num[1] <= '5' then "mastercard"
    else if |num| >= 2 && num[0] == '3' && (num[1] == '4' || num[1] == '7') then "amex"
    else "unknown"
  }

  /** The brand depends on the first two characters only. */
  lemma BrandIsPrefixDetermined(a: string, b: string)
    requires |a| >= 2
    ensures DetectBrand(a + b) == DetectBrand(a)
  {
    assert (a + b)[0] == a[0] && (a + b)[1] == a[1];
  }

  /** How provider initialization went on mount. */
  datatype ProviderInit =
    | LoadThrows                                     // loadStripe rejects
    | LoadedNull                                     // loadStripe resolves to null
    | Loaded(elementMountable: bool, throws: bool)   // elements()/create/mount

  /**
   * Mode chosen in `onMounted`: the provider's card element only when mock
   * payments are not forced, a key is configured (the argument, else the
   * environment's), the provider loads, and the element mounts into an
   * existing container; every other path, exceptions included, is the mock.
   */
  function SelectMode(forceMock: bool, publishableKey: Option<string>, envKey: Option<string>,
                      init: ProviderInit, containerPresent: bool): (m: Mode)
    ensures m == StripeMode <==>
      && !forceMock
      && Truthy(if publishableKey.Some? then publishableKey else envKey)
      && init == Loaded(true, false)
      && containerPresent
  {
    if forceMock then MockMode
    else
      var key := if publishableKey.Some? then publishableKey else envKey;
      if !Truthy(key) then MockMode
      else match init
        case LoadThrows => MockMode
        case LoadedNull => MockMode
        case Loaded(mountable, throws) =>
          if throws then MockMode
          else if containerPresent && mountable then StripeMode
          else MockMode
  }

  /** What `createPaymentMethod` did, in provider mode. */
  datatype ProviderTokenize =
    | PmRejected(err: JsError)                       // `{error}` in the response
    | PmCreated(id: string, last4: Option<string>, brand: Option<string>)
    | PmThrows(err: JsError)

  /** Result of `tokenize`: `{error}` or the card details. */
  datatype TokenizeResult = TokError(err: JsError) | Tokenized(details: CardDetails)

  datatype TokenizeStep = TokenizeStep(result: TokenizeResult, form: CardForm)

  const MissingFieldsMessage := "Completa los datos de la tarjeta."
  const TokenizeFallbackMessage := "Error al tokenizar con Stripe"
  const ConfirmFallbackMessage := "Error en la confirmación del pago"

  /** The message shown for an SDK `{error}`: its `message` when truthy, else the fallback. */
  function SdkErrorText(err: JsError, fallback: string): (msg: string)
    ensures fallback != "" ==> msg != ""
    ensures Truthy(err.message) ==> msg == err.message.value
  {
    if Truthy(err.message) then err.message.value else fallback
  }

  /** `number.slice(-4)`: the last four characters, or all of them when shorter. */
  function Last4(s: string): (r: string)
    ensures |r| == (if |s| < 4 then |s| else 4)
    ensures s == s[..|s| - |r|] + r
  {
    if |s| <= 4 then s else s[|s| - 4..]
  }

  /** `err?.message ?? String(err)`. */
  function MessageOrString(err: JsError): string {
    if err.message.Some? then err.message.value else err.repr
  }

  /**
   * `tokenize`: the error is cleared and `processing` set at the start and
   * reset at the end. `provider` is the SDK's answer in provider mode;
   * `freshToken` stands for the mock token built from the clock and a
   * random number. SDK failures, rejected or thrown, come back as
   * `{error}` with a message shown; nothing is rethrown.
   */
  function Tokenize(f: CardForm, provider: ProviderTokenize, freshToken: string): (st: TokenizeStep)
    ensures !st.form.processing
    ensures st.form.(processing := f.processing, error := f.error) == f
    ensures st.result.Tokenized? ==> st.form.error.None?
    ensures st.result.TokError? ==> st.form.error.Some?
    ensures f.mode == StripeMode && provider.PmRejected? ==>
      st.result == TokError(provider.err) && st.form.error == Some(SdkErrorText(provider.err, TokenizeFallbackMessage))
    ensures f.mode == StripeMode && provider.PmThrows? ==>
      st.result == TokError(provider.err) && st.form.error == Some(MessageOrString(provider.err))
    ensures f.mode == StripeMode && provider.PmCreated? ==>
      st.result == Tokenized(CardDetails(provider.id, provider.last4, provider.brand, Some(f.cardholder)))
  {
    if f.mode == StripeMode then
      match provider
      case PmRejected(err) =>
        TokenizeStep(TokError(err), f.(processing := false, error := Some(SdkErrorText(err, TokenizeFallbackMessage))))
      case PmCreated(id, last4, brand) =>
        TokenizeStep(Tokenized(CardDetails(id, last4, brand, Some(f.cardholder))), f.(processing := false, error := None))
      case PmThrows(err) =>
        TokenizeStep(TokError(err), f.(processing := false, error := Some(MessageOrString(err))))
    else if f.number == "" || f.exp == "" || f.cvc == "" then
      TokenizeStep(TokError(ErrorOf(MissingFieldsMessage)), f.(processing := false, error := Some(MissingFieldsMessage)))
    else
      var sanitized := StripSpaces(f.number);
      TokenizeStep(
        Tokenized(CardDetails(freshToken, Some(Last4(sanitized)), Some(DetectBrand(sanitized)), Some(f.cardholder))),
        f.(processing := false, error := None))
  }

  /** The mock form's tokenization outcome, stated against its inputs. */
  lemma MockTokenize(f: CardForm, provider: ProviderTokenize, freshToken: string)
    requires f.mode == MockMode
    ensures var st := Tokenize(f, provider, freshToken);
      && (f.number == "" || f.exp == "" || f.cvc == "" <==> st.result.TokError?)
      && (st.result.TokError? ==> st.form.error == Some(MissingFieldsMessage)
                                  && st.result.err.message == Some(MissingFieldsMessage))
      && (st.result.Tokenized? ==>
            var d := st.result.details; var digits := StripSpaces(f.number);
            && d.token == freshToken
            && d.last4 == Some(Last4(digits))
            && d.brand == Some(DetectBrand(digits))
            && d.cardholder == Some(f.cardholder))
  {
  }

  /** Card "4242424242424242" tokenizes to last4 "4242", brand "visa". */
  lemma VisaExample(f: CardForm, provider: ProviderTokenize, t: string)
    requires f.mode == MockMode && f.number == "4242424242424242" && f.exp != "" && f.cvc != ""
    ensures Tokenize(f, provider, t).result.Tokenized?
    ensures Tokenize(f, provider, t).result.details.last4 == Some("4242")
    ensures Tokenize(f, provider, t).result.details.brand == Some("visa")
  {
    assert NoSpaces(f.number);
    assert f.number[12..] == "4242";
  }

  /**
   * `tokenizePayload`: an error passes through unchanged; details keep
   * token, last4 and brand, and fall back to the form's cardholder.
   */
  function TokenizePayload(f: CardForm, res: TokenizeResult): (r: TokenizeResult)
    ensures res.TokError? ==> r == res
    ensures res.Tokenized? ==>
      && r.Tokenized?
      && r.details.(cardholder := res.details.cardholder) == res.details
      && r.details.cardholder.Some?
    ensures res.Tokenized? && res.details.cardholder.Some? ==> r == res
    ensures res.Tokenized? && res.details.cardholder.None? ==> r.details.cardholder == Some(f.cardholder)
  {
    match res
    case TokError(_) => res
    case Tokenized(d) =>
      Tokenized(d.(cardholder := if d.cardholder.Some? then d.cardholder else Some(f.cardholder)))
  }

  /** `{paymentIntent}` or `{error}`: what `confirmPayment` resolves to. */
  datatype ConfirmResult = ConfirmResult(paymentIntent: Option<PaymentIntent>, error: Option<JsError>)

  /** What `confirmCardPayment` did, in provider mode. */
  datatype ProviderConfirm =
    | ConfirmRejected(err: JsError)
    | ConfirmResolved(paymentIntent: Option<PaymentIntent>)
    | ConfirmThrows(err: JsError)

  datatype ConfirmStep = ConfirmStep(result: ConfirmResult, form: CardForm)

  /**
   * `confirmPayment(clientSecret)`: SDK failures come back as `{error}`,
   * never thrown; the mock resolves to a succeeded intent with a fresh id.
   */
  function ConfirmPayment(f: CardForm, clientSecret: string, provider: ProviderConfirm, freshId: string): (st: ConfirmStep)
    ensures !st.form.processing
    ensures st.form.(processing := f.processing, error := f.error) == f
    ensures st.result.error.Some? <==> st.form.error.Some?
    ensures f.mode == MockMode ==>
      st.result == ConfirmResult(Some(PaymentIntent(Some(freshId), Some("succeeded"))), None)
    ensures f.mode == StripeMode && provider.ConfirmRejected? ==>
      st.result == ConfirmResult(None, Some(provider.err))
      && st.form.error == Some(SdkErrorText(provider.err, ConfirmFallbackMessage))
    ensures f.mode == StripeMode && provider.ConfirmThrows? ==>
      st.result == ConfirmResult(None, Some(provider.err)) && st.form.error == Some(MessageOrString(provider.err))
    ensures f.mode == StripeMode && provider.ConfirmResolved? ==>
      st.result == ConfirmResult(provider.paymentIntent, None)
  {
    if f.mode == StripeMode then
      match provider
      case ConfirmRejected(err) =>
        ConfirmStep(ConfirmResult(None, Some(err)), f.(processing := false, error := Some(SdkErrorText(err, ConfirmFallbackMessage))))
      case ConfirmResolved(pi) =>
        ConfirmStep(ConfirmResult(pi, None), f.(processing := false, error := None))
      case ConfirmThrows(err) =>
        ConfirmStep(ConfirmResult(None, Some(err)), f.(processing := false, error := Some(MessageOrString(err))))
    else
      ConfirmStep(ConfirmResult(Some(PaymentIntent(Some(freshId), Some("succeeded"))), None), f.(processing := false, error := None))
  }

  /**
   * In provider mode an SDK failure, rejected or thrown, is exactly what
   * makes `tokenize` and `confirmPayment` return `{error}`, and the form
   * then shows a non-empty message whenever the error carries one.
   */
  lemma ProviderFailuresAreReturned(f: CardForm, tp: ProviderTokenize, cp: ProviderConfirm, secret: string, t: string, id: string)
    requires f.mode == StripeMode
    ensures Tokenize(f, tp, t).result.TokError? <==> !tp.PmCreated?
    ensures ConfirmPayment(f, secret, cp, id).result.error.Some? <==> !cp.ConfirmResolved?
    ensures tp.PmRejected? ==> Tokenize(f, tp, t).form.error.value != ""
    ensures cp.ConfirmRejected? ==> ConfirmPayment(f, secret, cp, id).form.error.value != ""
  {
  }
}
