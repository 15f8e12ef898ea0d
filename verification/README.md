# Payment mode selection: a Dafny model

This project models the payment-method demo in `Payment_mode.cpp`: a
factory-pattern pipeline that turns a free-form payment method name into a
`PaymentMode`, asks a `PaymentFactory` for a matching handler, and runs a
checkout that either rejects a non-positive amount or lets the handler print
a processing line. The `main` loop does this for each input and reports
names it cannot resolve as unsupported.

The model is functional:

- `Ascii` (`ascii.dfy`): `::tolower` as applied by `std::transform`. Only
  'A'..'Z' are lowered; every other character is left unchanged.
- `Modes` (`modes.dfy`): the `PaymentMode` enumeration, the three-entry
  lookup table and `ToPaymentMode`. `ToPaymentMode` lowercases a copy of
  the text and looks it up, with `Unknown` as the default.
- `Factory` (`factory.dfy`): the three handler classes become the variants
  of the `Handler` datatype, and virtual `process` becomes a `match`. The
  registry is a constant `map`, and `createPayment` returns
  `Option<Handler>`, with `None` in place of `nullptr`.
- `Checkout` (`checkout.dfy`): each printed line is an `Event`:
  `Invalid`, `Processed(name, amount)` or `Unsupported(input)`. Also here
  are `checkout`, the per-input dispatch of `main` (`Handle`) and the loop
  over all inputs (`RunInputs`). `main`'s run is a lemma (`DemoRun`).
  Further scenario lemmas cover cases `main` does not try: an upper-case
  unsupported name and non-positive amounts.
- `Wrappers` (`wrappers.dfy`): the `Option` type.

The amount is a `real`, because the source only compares it with zero.

## Model

| member | source | states |
|---|---|---|
| Ascii.LowerChar | Payment_mode.cpp:25 | An ASCII upper-case letter becomes the matching lower-case letter. Any other character is unchanged. The result is never upper-case. |
| Ascii.Lower | Payment_mode.cpp:24-25 | The lowercased copy has the input's length. Each position holds the lowercased input character, and no upper-case letter remains. |
| Ascii.LowerOfNoUpper | Payment_mode.cpp:24-25 | Lowercasing a string that has no upper-case letter returns it unchanged. |
| Ascii.LowerIdempotent | Payment_mode.cpp:24-25 | Lowercasing twice gives the same result as lowercasing once. |
| Modes.KeyOf | Payment_mode.cpp:18-22 | Each known mode has a lower-case key in the table that maps back to it. `Unknown` has no key. |
| Modes.ToPaymentMode | Payment_mode.cpp:17-29 | The result is PayPal, GooglePay or CreditCard exactly when the lowercased text is "paypal", "googlepay" or "creditcard". Any other text gives `Unknown`. |
| Modes.LookupShape | Payment_mode.cpp:18-22 | The table has exactly three keys, and none of them maps to `Unknown`. |
| Modes.ResolveIffKey | Payment_mode.cpp:18-28 | Text resolves to a known mode exactly when its lowercased form is that mode's key. |
| Modes.KeyRoundTrip | Payment_mode.cpp:18-28 | A known mode's key resolves back to that mode. |
| Modes.ResolveIgnoresCase | Payment_mode.cpp:24-28 | Text and its lowercased copy resolve to the same mode. |
| Modes.SameLowerSameMode | Payment_mode.cpp:24-28 | Two texts with the same lowercased form resolve to the same mode. |
| Modes.CaseVariantResolves | Payment_mode.cpp:18-28 | Any upper/lower-case spelling of a known key resolves to that key's mode. |
| Modes.WrongLengthIsUnknown | Payment_mode.cpp:18-28 | Text whose length is not 6, 9 or 10 resolves to `Unknown`. |
| Modes.UnsupportedExamples | Payment_mode.cpp:27-28 | "", "Bitcoin" and "BITCOIN" resolve to `Unknown`. |
| Modes.PayPalExamples | Payment_mode.cpp:17-29 | "PayPal" and "PAYPAL" resolve to PayPal. |
| Modes.GooglePayExamples | Payment_mode.cpp:100 | "GooglePay" resolves to GooglePay. |
| Modes.CreditCardExamples | Payment_mode.cpp:17-29 | "CreditCard" and "creditcard" resolve to CreditCard. |
| Factory.Label | Payment_mode.cpp:41-59 | Each handler prints one of "PayPal", "GooglePay" and "Credit Card". The name is "PayPal", "GooglePay" or "Credit Card" exactly when the handler is the one registered under PayPal, GooglePay or CreditCard. |
| Factory.HandlerWithLabel | Payment_mode.cpp:41-59 | Maps a printed name back to the handler that prints it. It finds a handler for "PayPal", "GooglePay" and "Credit Card" and for no other name. |
| Factory.LabelIdentifiesHandler | Payment_mode.cpp:42-58 | Each handler's name is one of the three names and maps back to that same handler, so different handlers print different names. |
| Factory.ModeOf | Payment_mode.cpp:67-71 | Every handler is registered under a known mode, never `Unknown`. |
| Factory.CreatePayment | Payment_mode.cpp:73-79 | A handler comes back exactly when the mode is not `Unknown`, and it is the variant registered for that mode. `Unknown` gives `None`, the model's null pointer. |
| Factory.RegistryShape | Payment_mode.cpp:67-71 | The registry holds exactly PayPal, GooglePay and CreditCard, three entries in all. |
| Factory.CreateRoundTrip | Payment_mode.cpp:67-77 | Creating a handler for the mode it is registered under gives back that handler variant. |
| Factory.HandlerExistsIffSupported | Payment_mode.cpp:103-106 | Resolving and then creating gives a handler exactly when the lowercased text is one of the three keys. |
| Checkout.Process | Payment_mode.cpp:41-59 | Processing emits one processing event. It carries the amount unchanged and a name that identifies the handler. |
| Checkout.Checkout | Payment_mode.cpp:86-92 | An amount <= 0 gives exactly the invalid event and nothing is processed. A positive amount gives one processing event with the handler's name and the amount. Checkout never reports an unsupported method. |
| Checkout.Handle | Payment_mode.cpp:102-111 | Text that resolves to `Unknown` gives an unsupported report quoting the original text. Otherwise an amount <= 0 gives the invalid event. Otherwise the result is a processing event whose handler matches the resolved mode. |
| Checkout.HandleIgnoresCase | Payment_mode.cpp:103-110 | Texts with the same lowercased form are handled identically when supported. When unsupported, each report quotes its own text. |
| Checkout.RunInputs | Payment_mode.cpp:102-111 | The loop emits one event per input, in input order, and each event is what `Handle` gives for that input. |
| Checkout.PositiveAmountNeverInvalid | Payment_mode.cpp:96-111 | With a positive amount, no event is invalid. An event is a processing event exactly when its input is supported. |
| Checkout.ProcessedCount | Payment_mode.cpp:102-111 | Over a run of the loop, a positive amount gives exactly one processing event per supported input. An amount <= 0 gives none. |
| Checkout.ScenarioPayPal | Payment_mode.cpp:96-107 | "PayPal" with 150.75 gives the PayPal processing event for 150.75. |
| Checkout.ScenarioGooglePayAndCreditCard | Payment_mode.cpp:96-107 | "GooglePay" and "CreditCard" with 150.75 give the GooglePay and Credit Card processing events. |
| Checkout.ScenarioBitcoin | Payment_mode.cpp:106-110 | "Bitcoin" from `main`, and the extra case "BITCOIN", give unsupported reports quoting the text as written. |
| Checkout.ScenarioInvalidAmounts | Payment_mode.cpp:86-90 | Two extra cases not among `main`'s inputs: "creditcard" with 0 and "GooglePay" with -5 give only the invalid event. |
| Checkout.DemoRun | Payment_mode.cpp:95-111 | On `main`'s four inputs with 150.75, the loop emits three processing events (PayPal, GooglePay, Credit Card) and then the report for "Bitcoin". |

## Left out

- Output text: the events stand for the printed lines. The default
  `std::cout` formatting of the `double` amount is not modelled.
- Floating point: the amount is a `real`. A NaN amount fails `amount <= 0`
  in C++ and so would be processed; `real` has no NaN, so this case is not
  modelled.
- `::tolower` on non-ASCII or negative `char` values, and any locale other
  than "C". Only 'A'..'Z' are lowered. Any other character passes through
  unchanged and cannot match a key, since all keys are lower-case ASCII.
- `std::unique_ptr`, `std::function` and `std::unordered_map`, the memory
  and container plumbing of the factory. The registry is a constant `map`
  from mode to handler variant.
- Exceptions: `std::make_unique` in the creators can throw
  `std::bad_alloc`, and writing to `std::cout` can fail. The model has no
  allocation or output failure: `CreatePayment` and every event are total.
- Object identity: each call to `createPayment` allocates a fresh object.
  Handlers here are immutable values, so two creations for one mode give
  equal, interchangeable handlers, and there is no identity to compare.
- Virtual dispatch through the abstract `Payment` base class: it is replaced
  by a `match` on the `Handler` datatype.
- `main`'s process exit status. Its hard-coded inputs and amount appear
  only as `Checkout.DemoInputs` and the scenario lemmas.
- Null text: the resolver takes its text as `const std::string&`, which
  cannot be null, so the model has no null case. Every string, including
  the empty one, resolves, and the empty one resolves to `Unknown`.
