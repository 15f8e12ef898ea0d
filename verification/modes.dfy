/**
  The payment-mode enumeration and the case-insensitive resolver that turns
  free-form text into a mode.
*/
module Modes {
  import opened Wrappers
  import opened Ascii

  datatype PaymentMode = PayPal | GooglePay | CreditCard | Unknown

  /** The resolver's fixed table of lower-case keys. */
  const Lookup: map<string, PaymentMode> :=
    map["paypal" := PayPal, "googlepay" := GooglePay, "creditcard" := CreditCard]

  /**
    The key a known mode is looked up by, or `None` for `Unknown`, which no
    key reaches.
  */
  function KeyOf(m: PaymentMode): (k: Option<string>)
    ensures k.Some? <==> m != Unknown
    ensures k.Some? ==> k.value in Lookup && Lookup[k.value] == m && NoUpper(k.value)
  {
    match m
    case PayPal => Some("paypal")
    case GooglePay => Some("googlepay")
    case CreditCard => Some("creditcard")
    case Unknown => None
  }

  /**
    Resolves text to a mode: the text is lower-cased and looked up in the
    table; anything that is not a key resolves to `Unknown`. Total: every
    string resolves to exactly one mode.
  */
  function ToPaymentMode(text: string): (m: PaymentMode)
    ensures m == PayPal <==> Lower(text) == "paypal"
    ensures m == GooglePay <==> Lower(text) == "googlepay"
    ensures m == CreditCard <==> Lower(text) == "creditcard"
    ensures m == Unknown <==> Lower(text) !in {"paypal", "googlepay", "creditcard"}
  {
    var key := Lower(text);
    if key in Lookup then Lookup[key] else Unknown
  }

  /** The table has exactly three entries and `Unknown` is the value of none of them. */
  lemma LookupShape()
    ensures Lookup.Keys == {"paypal", "googlepay", "creditcard"}
    ensures |Lookup| == 3
    ensures Unknown !in Lookup.Values
  {
  }

  /** Resolution agrees with the key table in both directions. */
  lemma ResolveIffKey(s: string, m: PaymentMode)
    requires m != Unknown
    ensures ToPaymentMode(s) == m <==> KeyOf(m) == Some(Lower(s))
  {
  }

  /** Every known mode's key resolves back to that mode. */
  lemma KeyRoundTrip(m: PaymentMode)
    requires m != Unknown
    ensures ToPaymentMode(KeyOf(m).value) == m
  {
  }

  /** Resolution ignores case: the text and its lower-cased copy resolve alike. */
  lemma ResolveIgnoresCase(s: string)
    ensures ToPaymentMode(Lower(s)) == ToPaymentMode(s)
  {
  }

  /** Two texts that differ only in the case of ASCII letters resolve alike. */
  lemma SameLowerSameMode(s: string, t: string)
    requires Lower(s) == Lower(t)
    ensures ToPaymentMode(s) == ToPaymentMode(t)
  {
  }

  /**
    `s` spells `key` in any mixture of upper and lower case: each of its
    characters lower-cases to the key's character at the same position.
  */
  predicate CaseVariantOf(s: string, key: string) {
    |s| == |key| && forall i :: 0 <= i < |s| ==> LowerChar(s[i]) == key[i]
  }

  /** Any case variant of a known mode's key resolves to that mode. */
  lemma CaseVariantResolves(s: string, m: PaymentMode)
    requires m != Unknown && CaseVariantOf(s, KeyOf(m).value)
    ensures ToPaymentMode(s) == m
  {
  }

  /**
    Lower-casing keeps the length, so only texts of length 6, 9 or 10 can
    name a supported mode.
  */
  lemma WrongLengthIsUnknown(s: string)
    requires |s| != 6 && |s| != 9 && |s| != 10
    ensures ToPaymentMode(s) == Unknown
  {
  }

  /** The empty text and the unsupported names used as examples resolve to `Unknown`. */
  lemma UnsupportedExamples()
    ensures ToPaymentMode("") == Unknown
    ensures ToPaymentMode("Bitcoin") == Unknown
    ensures ToPaymentMode("BITCOIN") == Unknown
  {
  }

  /** The mixed-case spellings used as examples resolve to their modes. */
  lemma PayPalExamples()
    ensures ToPaymentMode("PayPal") == PayPal
    ensures ToPaymentMode("PAYPAL") == PayPal
  {
  }

  lemma GooglePayExamples()
    ensures ToPaymentMode("GooglePay") == GooglePay
  {
  }

  lemma CreditCardExamples()
    ensures ToPaymentMode("CreditCard") == CreditCard
    ensures ToPaymentMode("creditcard") == CreditCard
  {
  }
}
