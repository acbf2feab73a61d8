/**
 The PaymentGatewayFacade: one entry point, `processPayment(method, amount)`,
 that selects a gateway by exact, case-sensitive comparison of the method key
 and returns the gateway's confirmation unchanged, or a sentinel text for an
 unknown key. Failure is an ordinary return value, so `Outcome` gives the
 structured reading of a result and `Classify` recovers it from the text.
 */
module Facade {
  import opened Wrappers
  import opened Decimal
  import opened Gateways

  /** The text the facade returns, followed by the key, for an unknown key. */
  const InvalidLead := "Invalid payment method: "

  /** The method key the facade accepts for a gateway. */
  function Key(g: Gateway): string {
    match g
    case PayPal => "paypal"
    case Stripe => "stripe"
  }

  /** The cases of the facade's `switch`: the gateway a method key selects,
      by exact, case-sensitive string equality. */
  function Lookup(key: string): (r: Option<Gateway>)
    ensures r.Some? ==> Key(r.value) == key
    ensures r.None? ==> forall g: Gateway :: Key(g) != key
  {
    if key == "paypal" then Some(PayPal)
    else if key == "stripe" then Some(Stripe)
    else None
  }

  /** `processPayment(method, amount)`: the result starts empty and exactly
      one branch of the switch appends to it. The JavaScript parameter
      `method` is called `key` here. */
  function ProcessPayment(key: string, amount: int): (r: string)
    ensures key == "paypal" ==> r == "Payment made using PayPal: $" + IntToDecimal(amount)
    ensures key == "stripe" ==> r == "Payment made using Stripe: $" + IntToDecimal(amount)
    ensures key != "paypal" && key != "stripe" ==> r == "Invalid payment method: " + key
  {
    var result := "";
    match Lookup(key)
    case Some(g) => result + MakePayment(g, amount)
    case None => result + InvalidLead + key
  }

  /** The structured reading of a result: which gateway paid how much, or
      which key was refused. */
  datatype Outcome = Paid(gateway: Gateway, amount: int) | Rejected(key: string)

  function Dispatch(key: string, amount: int): Outcome {
    match Lookup(key)
    case Some(g) => Paid(g, amount)
    case None => Rejected(key)
  }

  /** The text the facade returns for an outcome. */
  function Render(o: Outcome): string {
    match o
    case Paid(g, a) => MakePayment(g, a)
    case Rejected(m) => InvalidLead + m
  }

  /** Reads a result text back into an outcome. */
  function Classify(s: string): Option<Outcome> {
    if StartsWith(s, InvalidLead) then Some(Rejected(s[|InvalidLead|..]))
    else match ReadReceipt(s)
      case Some((g, a)) => Some(Paid(g, a))
      case None => None
  }

  /** Every gateway is reachable through its own key. */
  lemma LookupKey(g: Gateway)
    ensures Lookup(Key(g)) == Some(g)
  {
  }

  /** The facade's text is the rendering of the structured dispatch. */
  lemma ProcessPaymentRendersDispatch(key: string, amount: int)
    ensures ProcessPayment(key, amount) == Render(Dispatch(key, amount))
  {
  }

  /** A selected gateway's confirmation is returned unchanged. */
  lemma ProcessPaymentDelegates(key: string, amount: int)
    requires Lookup(key).Some?
    ensures ProcessPayment(key, amount) == MakePayment(Lookup(key).value, amount)
  {
  }

  /** For an unknown key the result does not depend on the amount. */
  lemma RejectionIgnoresAmount(key: string, a: int, b: int)
    requires Lookup(key).None?
    ensures ProcessPayment(key, a) == ProcessPayment(key, b) == InvalidLead + key
  {
  }

  /** Keys differing only in case, the empty key and any other key are refused. */
  lemma MatchingIsCaseSensitive(amount: int)
    ensures ProcessPayment("PayPal", amount) == "Invalid payment method: PayPal"
    ensures ProcessPayment("STRIPE", amount) == "Invalid payment method: STRIPE"
    ensures ProcessPayment("", amount) == "Invalid payment method: "
    ensures ProcessPayment("bitcoin", amount) == "Invalid payment method: bitcoin"
  {
  }

  lemma SuccessAndFailureLeadsDisjoint(s: string)
    ensures !(StartsWith(s, InvalidLead) && StartsWith(s, ConfirmationLead))
  {
    if StartsWith(s, InvalidLead) {
      assert s[0] == InvalidLead[0];
    }
  }

  /** Reading the text of any outcome gives back that outcome. */
  lemma ClassifyRender(o: Outcome)
    ensures Classify(Render(o)) == Some(o)
  {
    var s := Render(o);
    match o
    case Paid(g, a) =>
      assert s[..|ConfirmationLead|] == Prefix(g)[..|ConfirmationLead|] == ConfirmationLead;
      SuccessAndFailureLeadsDisjoint(s);
      ReadReceiptRoundTrip(g, a);
    case Rejected(m) =>
      assert s[..|InvalidLead|] == InvalidLead;
  }

  /** Every text that classifies as an outcome is that outcome's text. */
  lemma ClassifySound(s: string)
    requires Classify(s).Some?
    ensures Render(Classify(s).value) == s
  {
    if StartsWith(s, InvalidLead) {
      assert s == InvalidLead + s[|InvalidLead|..];
    } else {
      ReadReceiptSound(s);
    }
  }

  /** Success and failure, the provider and the amount or the refused key,
      can all be told from the returned text alone. */
  lemma ProcessPaymentClassified(key: string, amount: int)
    ensures Classify(ProcessPayment(key, amount)) == Some(Dispatch(key, amount))
  {
    ProcessPaymentRendersDispatch(key, amount);
    ClassifyRender(Dispatch(key, amount));
  }

  /** A result starts with the confirmation lead exactly when the key is known,
      and with the sentinel lead exactly when it is not. */
  lemma ProcessPaymentLeads(key: string, amount: int)
    ensures StartsWith(ProcessPayment(key, amount), ConfirmationLead) <==> Lookup(key).Some?
    ensures StartsWith(ProcessPayment(key, amount), InvalidLead) <==> Lookup(key).None?
  {
    var s := ProcessPayment(key, amount);
    SuccessAndFailureLeadsDisjoint(s);
    match Lookup(key)
    case Some(g) =>
      assert s[..|ConfirmationLead|] == Prefix(g)[..|ConfirmationLead|];
    case None =>
      assert s[..|InvalidLead|] == InvalidLead;
  }

  /** Equal results mean equal outcomes; in particular, for a known key,
      distinct amounts give distinct results. */
  lemma ProcessPaymentInjective(k1: string, a1: int, k2: string, a2: int)
    ensures ProcessPayment(k1, a1) == ProcessPayment(k2, a2) <==> Dispatch(k1, a1) == Dispatch(k2, a2)
  {
    ProcessPaymentClassified(k1, a1);
    ProcessPaymentClassified(k2, a2);
  }

  /** The first call of the demonstration script. */
  lemma DemoPayPal()
    ensures ProcessPayment("paypal", 100) == "Payment made using PayPal: $100"
  {
    var digits := IntToDecimal(100);
    assert digits == "100" by {
      assert NatToDecimal(10) == "10";
    }
    assert "Payment made using PayPal: $" + digits == "Payment made using PayPal: $100";
  }

  /** The second call of the demonstration script. */
  lemma DemoStripe()
    ensures ProcessPayment("stripe", 150) == "Payment made using Stripe: $150"
  {
    var digits := IntToDecimal(150);
    assert digits == "150" by {
      assert NatToDecimal(15) == "15";
    }
    assert "Payment made using Stripe: $" + digits == "Payment made using Stripe: $150";
  }
}
