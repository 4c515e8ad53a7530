/**
 * The checkout session of `useCheckoutStore`: who pays, how, the card-form
 * handle, and the processing / error / success flags; `pay`, `performPay`
 * and `handlePayment` with automatic card tokenization.
 */
module CheckoutStore {
  import opened Wrappers
  import opened ErrorHandler
  import opened CheckoutTypes
  import opened PaymentCard
  import opened CheckoutFlow

  datatype CheckoutState = CheckoutState(
    customer: Option<Customer>,
    payment: Option<PaymentMethod>,
    cardForm: Option<CardHandle>,
    errorMessage: Option<string>,
    isProcessing: bool,
    success: bool)

  const Initial: CheckoutState := CheckoutState(None, None, None, None, false, false)

  /**
   * The answers of the outside world to one attempt: the card form's
   * `tokenizePayload` (None for `undefined`), the backend's payment intent
   * and the card form's `confirmPayment`.
   */
  datatype Oracles = Oracles(tokenized: Option<TokenizeResult>, intent: IntentResponse, confirm: ConfirmResult)

  /** A payment method is chosen when `payment.method` is a non-empty string. */
  predicate HasMethod(s: CheckoutState) {
    s.payment.Some? && s.payment.value.methodId != ""
  }

  /**
   * `canPay`: the "Pay now" button is enabled exactly when a customer is
   * set and the payment carries a non-empty method name; card details are
   * not required, since tokenization happens on paying.
   */
  function CanPay(s: CheckoutState): (ok: bool)
    ensures ok <==> s.customer.Some? && s.payment.Some? && s.payment.value.methodId != ""
  {
    s.customer.Some? && HasMethod(s)
  }

  function OnCustomerConfirm(s: CheckoutState, c: Customer): (r: CheckoutState)
    ensures r.customer == Some(c) && r.(customer := s.customer) == s
  {
    s.(customer := Some(c))
  }

  function OnPaymentSelect(s: CheckoutState, p: PaymentMethod): (r: CheckoutState)
    ensures r.payment == Some(p) && r.(payment := s.payment) == s
  {
    s.(payment := Some(p))
  }

  function OnCardTokenized(s: CheckoutState, d: CardDetails): (r: CheckoutState)
    ensures r.payment.Some? && r.payment.value.methodId == CardMethod && r.payment.value.details == Some(d)
    ensures r.(payment := s.payment) == s
  {
    s.(payment := Some(PaymentMethod(CardMethod, Some(d))))
  }

  function SetCardForm(s: CheckoutState, h: Option<CardHandle>): (r: CheckoutState)
    ensures r.cardForm == h && r.(cardForm := s.cardForm) == s
  {
    s.(cardForm := h)
  }

  /** `resetCheckout`: all six fields back to their initial values. */
  function ResetCheckout(s: CheckoutState): (r: CheckoutState)
    ensures r.customer.None? && r.payment.None? && r.cardForm.None?
    ensures r.errorMessage.None? && !r.isProcessing && !r.success
  {
    Initial
  }

  /** Whether `autoTokenizeCard` reaches the card form's `tokenizePayload`. */
  predicate CanTokenize(s: CheckoutState) {
    s.cardForm.Some? && s.cardForm.value.hasTokenizePayload
  }

  /** `autoTokenizeCard`: the details, or null on a missing entry point, `undefined` or `{error}`. */
  function AutoTokenizeCard(s: CheckoutState, tokenized: Option<TokenizeResult>): (d: Option<CardDetails>)
    ensures d.Some? <==> CanTokenize(s) && tokenized.Some? && tokenized.value.Tokenized?
    ensures d.Some? ==> d.value == tokenized.value.details
  {
    if !CanTokenize(s) then None
    else match tokenized
      case Some(Tokenized(details)) => Some(details)
      case _ => None
  }

  /** What `pay` returns: `{success, paymentIntent?, error?}`. */
  datatype PayResult = PayResult(success: bool, paymentIntent: Option<PaymentIntent>, error: Option<JsError>)

  datatype PayStep = PayStep(state: CheckoutState, result: PayResult, calls: seq<GatewayCall>)

  /** The `catch` branch of `pay`: the handled error's message is shown. */
  function PayFailed(s: CheckoutState, err: JsError, calls: seq<GatewayCall>): PayStep {
    PayStep(s.(errorMessage := Some(HandleError(err).info.message), isProcessing := false, success := false),
            PayResult(false, None, Some(err)), calls)
  }

  /** "Pago en estado: <status or 'unknown'>". */
  function StatusMessage(pi: Option<PaymentIntent>): string {
    "Pago en estado: " + (if pi.Some? && pi.value.status.Some? then pi.value.status.value else "unknown")
  }

  function Pay(s: CheckoutState, total: int, o: Oracles): (st: PayStep)
    ensures !st.state.isProcessing
    ensures st.state.customer == s.customer && st.state.payment == s.payment && st.state.cardForm == s.cardForm
    ensures st.state.success <==> st.result.success
    ensures st.result.success ==> CanPay(s) && st.state.errorMessage.None?
    ensures !CanPay(s) ==> st.calls == [] && st.result.error.Some?
    ensures CanPay(s) && s.payment.value.methodId != CardMethod ==>
      st.result == PayResult(true, None, None) && st.calls == []
    ensures st.result.error.Some? ==>
      && !st.result.success
      && st.state.errorMessage == Some(HandleError(st.result.error.value).info.message)
  {
    var s1 := s.(errorMessage := None, isProcessing := true, success := false);
    if s1.customer.None? then PayFailed(s1, ErrorOf(NoCustomerMessage), [])
    else if !HasMethod(s1) then PayFailed(s1, ErrorOf(NoMethodMessage), [])
    else if s1.payment.value.methodId == CardMethod then
      var run := PerformCardPayment(s1.customer, s1.payment, s1.cardForm, total, o.intent, o.confirm);
      match run.outcome
      case Threw(err) => PayFailed(s1, err, run.calls)
      case Returned(ok, pi) =>
        if !ok then
          PayStep(s1.(errorMessage := Some(StatusMessage(pi)), isProcessing := false), PayResult(false, pi, None), run.calls)
        else
          PayStep(s1.(isProcessing := false, success := true), PayResult(true, pi, None), run.calls)
    else
      PayStep(s1.(isProcessing := false, success := true), PayResult(true, None, None), [])
  }

  /** What `performPay` returns: the checkout payload on success, the error otherwise. */
  datatype PerformPayResult = PerformPayResult(success: bool, payload: Option<CompletePayload>, error: Option<JsError>)

  datatype PerformPayStep = PerformPayStep(state: CheckoutState, result: PerformPayResult, calls: seq<GatewayCall>)

  function PerformPay(s: CheckoutState, total: int, o: Oracles): (st: PerformPayStep)
    ensures st.result.success <==> st.result.payload.Some?
    ensures st.result.success ==>
      && CanPay(s)
      && st.result.payload.value.customer == s.customer.value
      && st.result.payload.value.payment == s.payment.value
    ensures var p := Pay(s, total, o);
      && st.state == p.state && st.calls == p.calls
      && st.result.success == p.result.success
      && (st.result.success ==> st.result.payload.value.paymentIntent == p.result.paymentIntent)
      && (!st.result.success ==> st.result.error == p.result.error)
  {
    var p := Pay(s, total, o);
    if !p.result.success then PerformPayStep(p.state, PerformPayResult(false, None, p.result.error), p.calls)
    else PerformPayStep(p.state,
                        PerformPayResult(true, Some(CompletePayload(s.customer.value, s.payment.value, p.result.paymentIntent)), None),
                        p.calls)
  }

  /**
   * The session `handlePayment` pays with: a card payment without details
   * takes the details `autoTokenizeCard` produced, when it produced any;
   * anything else is left as it is.
   */
  function WithCardToken(s: CheckoutState, o: Oracles): (r: CheckoutState)
    ensures r.customer == s.customer && r.cardForm == s.cardForm
    ensures r.errorMessage == s.errorMessage && r.isProcessing == s.isProcessing && r.success == s.success
    ensures s.payment.None? || s.payment.value.methodId != CardMethod || s.payment.value.details.Some? ==> r == s
    ensures s.payment.Some? && s.payment.value.methodId == CardMethod && s.payment.value.details.None? ==>
      r.payment == (if AutoTokenizeCard(s, o.tokenized).Some? then Some(PaymentMethod(CardMethod, AutoTokenizeCard(s, o.tokenized)))
                    else s.payment)
  {
    if s.payment.Some? && s.payment.value.methodId == CardMethod && s.payment.value.details.None? then
      match AutoTokenizeCard(s, o.tokenized)
      case Some(d) => OnCardTokenized(s, d)
      case None => s
    else s
  }

  datatype HandleStep = HandleStep(state: CheckoutState, payload: Option<CompletePayload>, calls: seq<GatewayCall>)

  /**
   * `handlePayment(total)`: nothing happens unless a customer and a method are
   * set; a card without details is tokenized first; a card is then paid; any
   * other method returns the basic payload.
   */
  function HandlePayment(s: CheckoutState, total: int, o: Oracles): (st: HandleStep)
    ensures !CanPay(s) ==> st == HandleStep(s, None, [])
    ensures CanPay(s) && s.payment.value.methodId != CardMethod ==>
      st == HandleStep(s, Some(CompletePayload(s.customer.value, s.payment.value, None)), [])
    ensures st.payload.Some? ==> st.payload.value.customer == s.customer.value
    ensures CanPay(s) && s.payment.value.methodId == CardMethod ==>
      var p := Pay(WithCardToken(s, o), total, o);
      && st.state == p.state
      && (st.payload.Some? <==> st.state.success)
      && (st.payload.Some? ==>
            && st.state.payment.Some?
            && st.payload.value.payment == st.state.payment.value
            && st.payload.value.paymentIntent == p.result.paymentIntent)
  {
    if !CanPay(s) then HandleStep(s, None, [])
    else if s.payment.value.methodId == CardMethod then
      var needsToken := s.payment.value.details.None?;
      var tokenCalls := if needsToken && CanTokenize(s) then [TokenizeCall] else [];
      var s1 := WithCardToken(s, o);
      var pp := PerformPay(s1, total, o);
      HandleStep(pp.state, pp.result.payload, tokenCalls + pp.calls)
    else
      HandleStep(s, Some(CompletePayload(s.customer.value, s.payment.value, None)), [])
  }

  // ----- properties -----

  /** Automatic tokenization: when it runs and what it stores. */
  lemma AutoTokenization(s: CheckoutState, total: int, o: Oracles)
    requires CanPay(s) && s.payment.value.methodId == CardMethod
    ensures var st := HandlePayment(s, total, o);
      && (s.payment.value.details.None? && CanTokenize(s) ==> |st.calls| >= 1 && st.calls[0] == TokenizeCall)
      && (s.payment.value.details.Some? ==> TokenizeCall !in st.calls)
      && (s.payment.value.details.None? && AutoTokenizeCard(s, o.tokenized).Some? ==>
            st.state.payment == Some(PaymentMethod(CardMethod, Some(o.tokenized.value.details))))
      && (s.payment.value.details.Some? || AutoTokenizeCard(s, o.tokenized).None? ==>
            st.state.payment == s.payment)
  {
    var pp := PerformPay(WithCardToken(s, o), total, o);
    assert TokenizeCall !in pp.calls;
  }

  /**
   * A card payment whose intent is left unfinished shows its status and makes
   * `handlePayment` return null; a thrown error also leaves `success` false.
   */
  lemma CardFailureOutcomes(s: CheckoutState, total: int, o: Oracles)
    requires CanPay(s) && s.payment.value.methodId == CardMethod
    ensures var p := Pay(s, total, o);
      var run := PerformCardPayment(s.customer, s.payment, s.cardForm, total, o.intent, o.confirm);
      && (run.outcome.Returned? && !run.outcome.success ==>
            !p.state.success && p.state.errorMessage == Some(StatusMessage(run.outcome.paymentIntent)))
      && (run.outcome.Threw? ==>
            !p.state.success && p.result.error == Some(run.outcome.err)
            && p.state.errorMessage == Some(HandleError(run.outcome.err).info.message))
      && (run.outcome.Returned? && run.outcome.success ==> p.state.success && p.result.paymentIntent == run.outcome.paymentIntent)
  {
  }

  /**
   * The card path of `handlePayment` in general: it returns the payload
   * exactly when `performCardPayment`, run on the session with the
   * auto-tokenized card, returned success; the payload then carries that
   * card and that payment intent, and a null result always leaves a message
   * shown.
   */
  lemma CardHandlePayment(s: CheckoutState, total: int, o: Oracles)
    requires CanPay(s) && s.payment.value.methodId == CardMethod
    ensures var s1 := WithCardToken(s, o);
      var run := PerformCardPayment(s1.customer, s1.payment, s1.cardForm, total, o.intent, o.confirm);
      var st := HandlePayment(s, total, o);
      && (st.payload.Some? <==> run.outcome.Returned? && run.outcome.success)
      && (st.payload.Some? ==>
            st.payload.value == CompletePayload(s.customer.value, s1.payment.value, run.outcome.paymentIntent))
      && (st.payload.None? ==> st.state.errorMessage.Some? && !st.state.success)
  {
  }

  /** An intent left in "requires_action" makes `handlePayment` return null with that status shown. */
  lemma RequiresActionIsNotPaid(s: CheckoutState, total: int, o: Oracles, secret: string, pi: PaymentIntent)
    requires CanPay(s) && s.payment.value.methodId == CardMethod && s.payment.value.details.Some?
    requires s.cardForm.Some? && s.cardForm.value.hasConfirmPayment && total > 0
    requires o.intent == IntentData(Some(secret)) && secret != ""
    requires o.confirm == ConfirmResult(Some(pi), None) && pi.status == Some("requires_action")
    ensures HandlePayment(s, total, o).payload.None?
    ensures HandlePayment(s, total, o).state.errorMessage == Some("Pago en estado: requires_action")
    ensures !HandlePayment(s, total, o).state.success
  {
    assert StatusMessage(Some(pi)) == "Pago en estado: requires_action";
  }

  /** A confirmed card payment returns `{customer, payment, paymentIntent}`. */
  lemma SucceededCardPayment(s: CheckoutState, total: int, o: Oracles, secret: string, pi: PaymentIntent)
    requires CanPay(s) && s.payment.value.methodId == CardMethod && s.payment.value.details.Some?
    requires s.cardForm.Some? && s.cardForm.value.hasConfirmPayment && total > 0
    requires o.intent == IntentData(Some(secret)) && secret != ""
    requires o.confirm == ConfirmResult(Some(pi), None) && pi.status == Some("succeeded")
    ensures HandlePayment(s, total, o).payload == Some(CompletePayload(s.customer.value, s.payment.value, Some(pi)))
    ensures HandlePayment(s, total, o).state.success
    ensures HandlePayment(s, total, o).calls == [CreateIntent(total, "eur"), ConfirmCall(secret)]
  {
  }

  /** `pay` with a non-card method succeeds without calling anything. */
  lemma NonCardPay(s: CheckoutState, total: int, o: Oracles)
    requires CanPay(s) && s.payment.value.methodId != CardMethod
    ensures Pay(s, total, o).state.success && Pay(s, total, o).calls == []
    ensures Pay(s, total, o).state.errorMessage.None?
  {
  }

  /**
   * The form's two events decide `canPay`: after a customer is confirmed and
   * a method selected, paying is enabled exactly when the method name is
   * non-empty, with or without card details.
   */
  lemma CanPayAfterSelection(s: CheckoutState, c: Customer, p: PaymentMethod)
    ensures CanPay(OnPaymentSelect(OnCustomerConfirm(s, c), p)) <==> p.methodId != ""
    ensures CanPay(OnCustomerConfirm(OnPaymentSelect(s, p), c)) <==> p.methodId != ""
    ensures s.customer.None? ==> !CanPay(OnPaymentSelect(s, p))
  {
  }

  /** A reset checkout cannot pay until a customer and a method are provided again. */
  lemma ResetDisablesPaying(s: CheckoutState)
    ensures !CanPay(ResetCheckout(s))
    ensures ResetCheckout(s) == Initial
  {
  }
}
