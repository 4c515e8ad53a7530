/** The checkout domain's records: customer, payment method, payment intent, payload. */
module CheckoutTypes {
  import opened Wrappers

  datatype Customer = Customer(fullName: string, address: string, phone: string, email: string)

  /** The tokenized card a successful tokenization yields. */
  datatype CardDetails = CardDetails(token: string, last4: Option<string>, brand: Option<string>, cardholder: Option<string>)

  /** `{method, details?}`; `method` (here `methodId`) is a string at run time, `'card'` in practice. */
  datatype PaymentMethod = PaymentMethod(methodId: string, details: Option<CardDetails>)

  const CardMethod := "card"

  datatype PaymentIntent = PaymentIntent(id: Option<string>, status: Option<string>)

  /** `{customer, payment, paymentIntent?}` handed to order completion. */
  datatype CompletePayload = CompletePayload(customer: Customer, payment: PaymentMethod, paymentIntent: Option<PaymentIntent>)

  /**
   * The card-form handle the checkout holds: which of its two entry points
   * (`confirmPayment`, `tokenizePayload`) it exposes.
   */
  datatype CardHandle = CardHandle(hasConfirmPayment: bool, hasTokenizePayload: bool)
}
