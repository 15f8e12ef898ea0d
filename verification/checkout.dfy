/**
  Processing, the checkout routine, and the per-input dispatch of the demo
  loop. Each printed line is modelled as one `Event`.
*/
module Checkout {
  import opened Wrappers
  import opened Ascii
  import opened Modes
  import opened Factory

  /**
    One line of output: the invalid-amount notice, a processing message
    naming the handler and the amount, or the unsupported-method report
    carrying the text the caller gave.
  */
  datatype Event = Invalid | Processed(name: string, amount: real) | Unsupported(input: string)

  /** A handler's `process`: one processing message with its label and the amount as given. */
  function Process(h: Handler, amount: real): (e: Event)
    ensures e.Processed? && e.amount == amount
    ensures HandlerWithLabel(e.name) == Some(h)
  {
    LabelIdentifiesHandler(h);
    Processed(Label(h), amount)
  }

  /**
    Rejects a non-positive amount without processing; otherwise hands the
    amount to the handler unchanged.
  */
  function Checkout(h: Handler, amount: real): (e: Event)
    ensures !e.Unsupported?
    ensures e.Invalid? <==> amount <= 0.0
    ensures e.Processed? <==> amount > 0.0
    ensures e.Processed? ==> e.amount == amount && HandlerWithLabel(e.name) == Some(h)
  {
    if amount <= 0.0 then Invalid else Process(h, amount)
  }

  /**
    One iteration of the demo loop: resolve the text, create a handler, and
    either check out with it or report the text as unsupported.
  */
  function Handle(input: string, amount: real): (e: Event)
    ensures e.Unsupported? <==> ToPaymentMode(input) == Unknown
    ensures e.Unsupported? ==> e.input == input
    ensures e.Invalid? <==> ToPaymentMode(input) != Unknown && amount <= 0.0
    ensures e.Processed? ==>
              && amount > 0.0
              && e.amount == amount
              && HandlerWithLabel(e.name).Some?
              && ModeOf(HandlerWithLabel(e.name).value) == ToPaymentMode(input)
  {
    match CreatePayment(ToPaymentMode(input))
    case Some(h) => Checkout(h, amount)
    case None => Unsupported(input)
  }

  /** Handling ignores the case of the text, except that a report quotes it verbatim. */
  lemma HandleIgnoresCase(s: string, t: string, amount: real)
    requires Lower(s) == Lower(t)
    ensures ToPaymentMode(s) != Unknown ==> Handle(s, amount) == Handle(t, amount)
    ensures ToPaymentMode(s) == Unknown ==>
              Handle(s, amount) == Unsupported(s) && Handle(t, amount) == Unsupported(t)
  {
  }

  /**
    The demo loop: handles every input in order with the same amount and
    emits one event per input.
  */
  method RunInputs(inputs: seq<string>, amount: real) returns (events: seq<Event>)
    ensures |events| == |inputs|
    ensures forall i :: 0 <= i < |inputs| ==> events[i] == Handle(inputs[i], amount)
  {
    events := [];
    var k := 0;
    while k < |inputs|
      invariant 0 <= k <= |inputs|
      invariant |events| == k
      invariant forall i :: 0 <= i < k ==> events[i] == Handle(inputs[i], amount)
    {
      var mode := ToPaymentMode(inputs[k]);
      var payment := CreatePayment(mode);
      var e;
      if payment.Some? {
        e := Checkout(payment.value, amount);
      } else {
        e := Unsupported(inputs[k]);
      }
      events := events + [e];
      k := k + 1;
    }
  }

  /** With a positive amount, each input yields a processing message or an unsupported report. */
  lemma PositiveAmountNeverInvalid(inputs: seq<string>, amount: real, events: seq<Event>)
    requires amount > 0.0
    requires |events| == |inputs|
    requires forall i :: 0 <= i < |inputs| ==> events[i] == Handle(inputs[i], amount)
    ensures forall i :: 0 <= i < |events| ==> !events[i].Invalid?
    ensures forall i :: 0 <= i < |events| ==> (events[i].Processed? <==> ToPaymentMode(inputs[i]) != Unknown)
  {
  }

  /** The number of processing messages among `events`. */
  function CountProcessed(events: seq<Event>): (n: nat) {
    if events == [] then 0
    else (if events[0].Processed? then 1 else 0) + CountProcessed(events[1..])
  }

  /** The number of `inputs` that resolve to a supported mode. */
  function CountSupported(inputs: seq<string>): (n: nat) {
    if inputs == [] then 0
    else (if ToPaymentMode(inputs[0]) != Unknown then 1 else 0) + CountSupported(inputs[1..])
  }

  /**
    Over a whole run, a positive amount yields exactly one processing message
    per supported input, and a non-positive amount yields none.
  */
  lemma {:induction false} ProcessedCount(inputs: seq<string>, amount: real, events: seq<Event>)
    requires |events| == |inputs|
    requires forall i :: 0 <= i < |inputs| ==> events[i] == Handle(inputs[i], amount)
    ensures amount > 0.0 ==> CountProcessed(events) == CountSupported(inputs)
    ensures amount <= 0.0 ==> CountProcessed(events) == 0
  {
    if inputs != [] {
      assert events[0] == Handle(inputs[0], amount);
      ProcessedCount(inputs[1..], amount, events[1..]);
    }
  }

  /** "PayPal" with 150.75 prints the PayPal processing message for 150.75. */
  lemma ScenarioPayPal()
    ensures Handle("PayPal", 150.75) == Processed("PayPal", 150.75)
  {
  }

  /** "GooglePay" and "CreditCard" with 150.75 print their processing messages. */
  lemma ScenarioGooglePayAndCreditCard()
    ensures Handle("GooglePay", 150.75) == Processed("GooglePay", 150.75)
    ensures Handle("CreditCard", 150.75) == Processed("Credit Card", 150.75)
  {
    GooglePayExamples();
    CreditCardExamples();
  }

  /** "Bitcoin" and "BITCOIN" are reported unsupported, quoting the text as given. */
  lemma ScenarioBitcoin()
    ensures Handle("Bitcoin", 150.75) == Unsupported("Bitcoin")
    ensures Handle("BITCOIN", 150.75) == Unsupported("BITCOIN")
  {
  }

  /** A supported method with amount 0 or -5 prints only the invalid-amount notice. */
  lemma ScenarioInvalidAmounts()
    ensures Handle("creditcard", 0.0) == Invalid
    ensures Handle("GooglePay", -5.0) == Invalid
  {
    CreditCardExamples();
    GooglePayExamples();
  }

  /** A four-element sequence equals the display of its elements. */
  lemma SeqOfFour<T>(s: seq<T>)
    requires |s| == 4
    ensures s == [s[0], s[1], s[2], s[3]]
  {
  }

  /** The inputs the demo loop is run on, with amount 150.75. */
  const DemoInputs: seq<string> := ["PayPal", "GooglePay", "CreditCard", "Bitcoin"]

  /** The demo's four inputs produce three processing messages and one report, in order. */
  lemma DemoRun(events: seq<Event>)
    requires |events| == |DemoInputs|
    requires forall i :: 0 <= i < |DemoInputs| ==> events[i] == Handle(DemoInputs[i], 150.75)
    ensures events == [Processed("PayPal", 150.75), Processed("GooglePay", 150.75),
                       Processed("Credit Card", 150.75), Unsupported("Bitcoin")]
  {
    assert events[0] == Processed("PayPal", 150.75) by {
      ScenarioPayPal();
      assert events[0] == Handle("PayPal", 150.75);
    }
    assert events[1] == Processed("GooglePay", 150.75) by {
      ScenarioGooglePayAndCreditCard();
      assert events[1] == Handle("GooglePay", 150.75);
    }
    assert events[2] == Processed("Credit Card", 150.75) by {
      ScenarioGooglePayAndCreditCard();
      assert events[2] == Handle("CreditCard", 150.75);
    }
    assert events[3] == Unsupported("Bitcoin") by {
      ScenarioBitcoin();
      assert events[3] == Handle("Bitcoin", 150.75);
    }
    SeqOfFour(events);
  }
}
