/**
  The three payment handlers and the factory that creates one per known
  payment mode.
*/
module Factory {
  import opened Wrappers
  import opened Modes

  /** One variant per concrete handler class; each has a single `process` capability. */
  datatype Handler = PayPalPayment | GooglePayPayment | CreditCardPayment

  /**
    The name a handler's processing message shows: one of three names, each
    belonging to the handler registered under one mode.
  */
  function Label(h: Handler): (r: string)
    ensures r in {"PayPal", "GooglePay", "Credit Card"}
    ensures r == "PayPal" <==> ModeOf(h) == PayPal
    ensures r == "GooglePay" <==> ModeOf(h) == GooglePay
    ensures r == "Credit Card" <==> ModeOf(h) == CreditCard
  {
    match h
    case PayPalPayment => "PayPal"
    case GooglePayPayment => "GooglePay"
    case CreditCardPayment => "Credit Card"
  }

  /** The handler whose messages carry `name`, if any. */
  function HandlerWithLabel(name: string): (h: Option<Handler>)
    ensures h.Some? ==> Label(h.value) == name
    ensures h.None? ==> name !in {"PayPal", "GooglePay", "Credit Card"}
  {
    if name == "PayPal" then Some(PayPalPayment)
    else if name == "GooglePay" then Some(GooglePayPayment)
    else if name == "Credit Card" then Some(CreditCardPayment)
    else None
  }

  /** A handler's label identifies it: distinct handlers print distinct names. */
  lemma LabelIdentifiesHandler(h: Handler)
    ensures HandlerWithLabel(Label(h)) == Some(h)
    ensures Label(h) in {"PayPal", "GooglePay", "Credit Card"}
  {
  }

  /** The mode a handler is registered under. */
  function ModeOf(h: Handler): (m: PaymentMode)
    ensures m != Unknown
  {
    match h
    case PayPalPayment => PayPal
    case GooglePayPayment => GooglePay
    case CreditCardPayment => CreditCard
  }

  /** The factory's registry: one creator per known mode, none for `Unknown`. */
  const Registry: map<PaymentMode, Handler> :=
    map[PayPal := PayPalPayment, GooglePay := GooglePayPayment, CreditCard := CreditCardPayment]

  /**
    Creates a fresh handler for a mode, or returns `None` (the null pointer)
    when the mode has no creator in the registry.
  */
  function CreatePayment(mode: PaymentMode): (h: Option<Handler>)
    ensures h.Some? <==> mode != Unknown
    ensures h.Some? ==> ModeOf(h.value) == mode
  {
    RegistryShape();
    if mode in Registry then Some(Registry[mode])
    else
      assert !mode.PayPal? && !mode.GooglePay? && !mode.CreditCard?;
      None
  }

  /** The registry holds exactly the three known modes. */
  lemma RegistryShape()
    ensures Registry.Keys == {PayPal, GooglePay, CreditCard}
    ensures Unknown !in Registry
    ensures |Registry| == 3
  {
  }

  /** Creating a handler for the mode it is registered under gives that handler back. */
  lemma CreateRoundTrip(h: Handler)
    ensures CreatePayment(ModeOf(h)) == Some(h)
  {
  }

  /** Composed with resolution, a handler exists exactly for supported text. */
  lemma HandlerExistsIffSupported(s: string)
    ensures CreatePayment(ToPaymentMode(s)).Some? <==> ToPaymentMode(s) != Unknown
    ensures CreatePayment(ToPaymentMode(s)).Some? <==>
              Ascii.Lower(s) in {"paypal", "googlepay", "creditcard"}
  {
  }
}
