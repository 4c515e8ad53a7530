/**
 * `performCardPayment`: validates the checkout inputs in order, asks the
 * backend for a payment intent of the order total in euros, has the card
 * form confirm it, and classifies the outcome. The backend's and the card
 * form's answers are parameters; the calls made are returned as a trace.
 */
module CheckoutFlow {
  import opened Wrappers
  import opened ErrorHandler
  import opened CheckoutTypes
  import opened PaymentCard

  /** What `createPaymentIntent(total, 'eur')` produced. */
  datatype IntentResponse =
    | IntentRejected(err: JsError)                 // the service call threw
    | IntentData(clientSecret: Option<string>)     // resolved; `client_secret` may be missing

  /** Outbound calls, in the order they are made. */
  datatype GatewayCall =
    | TokenizeCall
    | CreateIntent(amount: int, currency: string)
    | ConfirmCall(clientSecret: string)

  datatype FlowOutcome =
    | Threw(err: JsError)
    | Returned(success: bool, paymentIntent: Option<PaymentIntent>)

  datatype FlowRun = FlowRun(outcome: FlowOutcome, calls: seq<GatewayCall>)

  const NoCustomerMessage := "Cliente no proporcionado"
  const NoMethodMessage := "Método de pago no seleccionado"
  const BadAmountMessage := "Importe inválido para crear PaymentIntent"
  const NoCardFormMessage := "Formulario de tarjeta no disponible para confirmar pago"
  const NoSecretMessage := "client_secret no devuelto por el backend"
  const Currency := "eur"

  /** The checks made before any call, in order; the first failing one names the error. */
  function Validate(customer: Option<Customer>, payment: Option<PaymentMethod>,
                    cardForm: Option<CardHandle>, total: int): (err: Option<string>)
    ensures err.None? <==>
      customer.Some? && payment.Some? && payment.value.methodId != "" && total > 0
      && cardForm.Some? && cardForm.value.hasConfirmPayment
  {
    if customer.None? then Some(NoCustomerMessage)
    else if payment.None? || payment.value.methodId == "" then Some(NoMethodMessage)
    else if total <= 0 then Some(BadAmountMessage)
    else if cardForm.None? || !cardForm.value.hasConfirmPayment then Some(NoCardFormMessage)
    else None
  }

  /** A payment intent whose status is present, non-empty and not "succeeded". */
  predicate Unfinished(pi: Option<PaymentIntent>) {
    pi.Some? && pi.value.status.Some? && pi.value.status.value != "" && pi.value.status.value != "succeeded"
  }

  function PerformCardPayment(customer: Option<Customer>, payment: Option<PaymentMethod>,
                              cardForm: Option<CardHandle>, total: int,
                              intent: IntentResponse, confirm: ConfirmResult): (run: FlowRun)
    // nothing is called unless every check passes, and then the intent is for `total` in euros
    ensures Validate(customer, payment, cardForm, total).Some? ==>
      run == FlowRun(Threw(ErrorOf(Validate(customer, payment, cardForm, total).value)), [])
    ensures Validate(customer, payment, cardForm, total).None? ==>
      |run.calls| >= 1 && run.calls[0] == CreateIntent(total, Currency)
    // confirmation happens exactly when a client secret came back, and receives it
    ensures |run.calls| == 2 <==>
      Validate(customer, payment, cardForm, total).None? && intent.IntentData? && Truthy(intent.clientSecret)
    ensures |run.calls| == 2 ==> run.calls[1] == ConfirmCall(intent.clientSecret.value)
    ensures |run.calls| == 1 && intent.IntentData? ==> run.outcome == Threw(ErrorOf(NoSecretMessage))
    ensures |run.calls| == 1 && intent.IntentRejected? ==> run.outcome == Threw(intent.err)
    // a confirmation error is rethrown unchanged; otherwise the intent is classified
    ensures |run.calls| == 2 && confirm.error.Some? ==> run.outcome == Threw(confirm.error.value)
    ensures |run.calls| == 2 && confirm.error.None? ==>
      run.outcome == Returned(!Unfinished(confirm.paymentIntent), confirm.paymentIntent)
  {
    var invalid := Validate(customer, payment, cardForm, total);
    if invalid.Some? then FlowRun(Threw(ErrorOf(invalid.value)), [])
    else
      var create := [CreateIntent(total, Currency)];
      match intent
      case IntentRejected(err) => FlowRun(Threw(err), create)
      case IntentData(secret) =>
        if !Truthy(secret) then FlowRun(Threw(ErrorOf(NoSecretMessage)), create)
        else
          var calls := create + [ConfirmCall(secret.value)];
          if confirm.error.Some? then FlowRun(Threw(confirm.error.value), calls)
          else
            var pi := confirm.paymentIntent;
            if Unfinished(pi) then FlowRun(Returned(false, pi), calls)
            else FlowRun(Returned(true, pi), calls)
  }

  /** The checks run in order: each failing check wins over every later one. */
  lemma ValidationOrder(customer: Option<Customer>, payment: Option<PaymentMethod>,
                        cardForm: Option<CardHandle>, total: int)
    ensures customer.None? ==> Validate(customer, payment, cardForm, total) == Some(NoCustomerMessage)
    ensures customer.Some? && (payment.None? || payment.value.methodId == "") ==>
      Validate(customer, payment, cardForm, total) == Some(NoMethodMessage)
    ensures customer.Some? && payment.Some? && payment.value.methodId != "" && total <= 0 ==>
      Validate(customer, payment, cardForm, total) == Some(BadAmountMessage)
    ensures (customer.Some? && payment.Some? && payment.value.methodId != "" && total > 0
             && (cardForm.None? || !cardForm.value.hasConfirmPayment)) ==>
      Validate(customer, payment, cardForm, total) == Some(NoCardFormMessage)
  {
  }

  /** "succeeded", a missing intent or a missing status all count as success. */
  lemma SuccessClassification(customer: Customer, payment: PaymentMethod, card: CardHandle,
                              total: int, secret: string, pi: Option<PaymentIntent>)
    requires payment.methodId != "" && total > 0 && card.hasConfirmPayment && secret != ""
    ensures var run := PerformCardPayment(Some(customer), Some(payment), Some(card), total,
                                          IntentData(Some(secret)), ConfirmResult(pi, None));
      && run.calls == [CreateIntent(total, "eur"), ConfirmCall(secret)]
      && (pi.None? || pi.value.status.None? || pi.value.status == Some("succeeded") ==> run.outcome == Returned(true, pi))
      && (pi.Some? && pi.value.status == Some("requires_action") ==> run.outcome == Returned(false, pi))
  {
  }
}
