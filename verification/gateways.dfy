/**
 The two payment providers. Each gateway is stateless: `makePayment`
 prefixes a fixed confirmation text to the decimal rendering of the amount
 and never fails. A gateway object has no identity beyond its kind, so the
 two classes are the two constructors of one datatype.
 */
module Gateways {
  import opened Wrappers
  import opened Decimal

  datatype Gateway = PayPal | Stripe

  /** The text every confirmation starts with, whichever provider made it. */
  const ConfirmationLead := "Payment made using "

  predicate StartsWith(s: string, p: string) {
    |p| <= |s| && s[..|p|] == p
  }

  /** The fixed literal a gateway puts before the amount. */
  function Prefix(g: Gateway): (p: string)
    ensures StartsWith(p, ConfirmationLead)
  {
    match g
    case PayPal => "Payment made using PayPal: $"
    case Stripe => "Payment made using Stripe: $"
  }

  /** `makePayment(amount)` of the gateway `g`: the gateway's literal
      followed by exactly the rendering of the amount. */
  function MakePayment(g: Gateway, amount: int): (r: string)
    ensures StartsWith(r, Prefix(g))
    ensures r[|Prefix(g)|..] == IntToDecimal(amount)
  {
    Prefix(g) + IntToDecimal(amount)
  }

  /** Recovers provider and amount from a confirmation, or None when the text
      is not one a gateway can produce. */
  function ReadReceipt(s: string): Option<(Gateway, int)> {
    if StartsWith(s, Prefix(PayPal)) then
      match ParseDecimal(s[|Prefix(PayPal)|..])
      case Some(a) => Some((PayPal, a))
      case None => None
    else if StartsWith(s, Prefix(Stripe)) then
      match ParseDecimal(s[|Prefix(Stripe)|..])
      case Some(a) => Some((Stripe, a))
      case None => None
    else
      None
  }

  /** The two prefixes are distinct, and neither extends the other: the
      provider can be told from the text. */
  lemma PrefixesDisjoint(s: string)
    ensures !(StartsWith(s, Prefix(PayPal)) && StartsWith(s, Prefix(Stripe)))
  {
  }

  /** A confirmation names its provider and amount: reading it back gives both. */
  lemma ReadReceiptRoundTrip(g: Gateway, amount: int)
    ensures ReadReceipt(MakePayment(g, amount)) == Some((g, amount))
  {
    var s := MakePayment(g, amount);
    PrefixesDisjoint(s);
    IntRoundTrip(amount);
  }

  /** Every text that reads as a confirmation is exactly that confirmation. */
  lemma ReadReceiptSound(s: string)
    requires ReadReceipt(s).Some?
    ensures MakePayment(ReadReceipt(s).value.0, ReadReceipt(s).value.1) == s
  {
    var g := ReadReceipt(s).value.0;
    var rest := s[|Prefix(g)|..];
    assert StartsWith(s, Prefix(g));
    ParseSound(rest);
    assert s == Prefix(g) + rest;
  }

  /** Distinct (provider, amount) pairs give distinct confirmations. */
  lemma MakePaymentInjective(g1: Gateway, a1: int, g2: Gateway, a2: int)
    ensures MakePayment(g1, a1) == MakePayment(g2, a2) <==> g1 == g2 && a1 == a2
  {
    ReadReceiptRoundTrip(g1, a1);
    ReadReceiptRoundTrip(g2, a2);
  }
}
