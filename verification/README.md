# Payment gateway facade, modelled in Dafny

The repository illustrates the Facade pattern. One entry point,
`PaymentGatewayFacade.processPayment(method, amount)`, picks one of two
stub payment gateways by a string key. Each gateway only formats a
confirmation string:

- `"paypal"` returns `"Payment made using PayPal: $<amount>"`.
- `"stripe"` returns `"Payment made using Stripe: $<amount>"`.
- Any other key returns `"Invalid payment method: <key>"`. This is an
  ordinary return value, not an exception.

The model has four modules:

- `Wrappers` holds `Option`.
- `Decimal` renders an integer-valued JavaScript Number in decimal, as
  `String.prototype.concat` does for the amount. This is Number::toString,
  section 6.1.6.1.20 of ECMA-262, for integers: digits with no leading zero,
  and `-` in front when negative. `ParseDecimal` is its inverse on canonical
  renderings.
- `Gateways` models the two gateway classes as the two constructors of
  `Gateway`. `MakePayment(g, amount)` is their `makePayment`. `ReadReceipt`
  is its inverse.
- `Facade` holds `ProcessPayment`, whose body follows the `switch`: the
  result starts as `""` and one branch appends to it. It also holds `Lookup`,
  which maps a key to a gateway by exact string equality. The structured
  `Outcome` (`Paid(gateway, amount)` or `Rejected(key)`) is the reading of a
  result. `Render` turns an outcome into text, and `Classify` reads the text
  back. The lemmas prove that the facade's text is `Render(Dispatch(..))` and
  that `Classify` recovers the outcome from any result. So success versus
  failure, the provider, the amount and the refused key can all be told from
  the returned string alone.

The JavaScript parameter `method` is called `key` in the model, because
`method` is a Dafny keyword.

## Model

| member | source | states |
|---|---|---|
| Decimal.NatToDecimal | facade.js:41-52 | the rendering of a non-negative amount is a non-empty digit string with no leading zero; it is "0" exactly for 0 |
| Decimal.IntToDecimal | facade.js:41-52 | the rendering of any integer amount is well formed, and it starts with '-' exactly when the amount is negative |
| Decimal.ParseDecimal | facade.js:41-52 | a string is accepted back as an integer exactly when it has the shape of a rendering |
| Decimal.IntRoundTrip | facade.js:41-52 | reading back the rendering of any integer gives that integer |
| Decimal.ParseSound | facade.js:41-52 | the only string read back as n is the rendering of n |
| Decimal.IntToDecimalInjective | facade.js:41-52 | two integers have the same rendering exactly when they are equal |
| Gateways.Prefix | facade.js:40-53 | both gateway literals begin with "Payment made using " |
| Gateways.PrefixesDisjoint | facade.js:40-53 | no text starts with both the PayPal and the Stripe literal |
| Gateways.MakePayment | facade.js:40-53 | each gateway's `makePayment` returns its own literal followed by exactly the decimal rendering of the amount |
| Gateways.ReadReceiptRoundTrip | facade.js:40-53 | the provider and the amount can be read back from any confirmation |
| Gateways.ReadReceiptSound | facade.js:40-53 | every text read as a confirmation of (g, a) is exactly what gateway g returns for a |
| Gateways.MakePaymentInjective | facade.js:40-53 | two confirmations are equal exactly when provider and amount are equal |
| Facade.Lookup | facade.js:20-26 | a selected gateway's key equals the given key; when none is selected, no gateway's key equals it |
| Facade.LookupKey | facade.js:21-25 | each gateway is selected by its own key |
| Facade.ProcessPaymentRendersDispatch | facade.js:18-31 | the facade's text is the rendering of the structured outcome: Paid for a known key, Rejected otherwise |
| Facade.ProcessPayment | facade.js:18-31 | "paypal" and "stripe" give the exact confirmation texts for the amount; every other key gives "Invalid payment method: " followed by the key |
| Facade.ProcessPaymentDelegates | facade.js:19-26 | for a known key the gateway's confirmation is returned unchanged |
| Facade.RejectionIgnoresAmount | facade.js:27-28 | for an unknown key the result is the sentinel text and does not depend on the amount |
| Facade.MatchingIsCaseSensitive | facade.js:20-28 | for every amount, "PayPal", "STRIPE", "" and "bitcoin" fall through to the sentinel branch |
| Facade.SuccessAndFailureLeadsDisjoint | facade.js:28 | no text starts with both the sentinel lead and the confirmation lead |
| Facade.ClassifyRender | facade.js:19-30 | reading the text of any outcome gives back that outcome |
| Facade.ClassifySound | facade.js:18-31 | every text that reads as an outcome is that outcome's text |
| Facade.ProcessPaymentClassified | facade.js:18-31 | the outcome of any call can be recovered from its result text alone |
| Facade.ProcessPaymentLeads | facade.js:27-30 | a result starts with "Payment made using " exactly when the key is known, and with "Invalid payment method: " exactly when it is not |
| Facade.ProcessPaymentInjective | facade.js:21-28 | two calls give equal texts exactly when their outcomes are equal, so for a known key distinct amounts give distinct texts |
| Facade.DemoPayPal | facade.js:69 | the script's first call gives "Payment made using PayPal: $100" |
| Facade.DemoStripe | facade.js:70 | the script's second call gives "Payment made using Stripe: $150" |

## Left out

- `clientCode` and its `console.log` (facade.js:61-63) only print. Printing is I/O, so it is not modelled.
- The top-level script (facade.js:68-70) appears only as the concrete values in `Facade.DemoPayPal` and `Facade.DemoStripe`.
- Non-integer, NaN, infinite and very large amounts are not modelled. JavaScript renders such Numbers with floating-point rounding and exponent notation. The amount is an unbounded `int`, always rendered in plain decimal.
- Facade.ProcessPayment: keys holding an unpaired UTF-16 surrogate, such as `"\uD800"`, are not modelled. A JavaScript string is a sequence of UTF-16 code units, and the facade refuses such a key like any other unknown one. A Dafny `string` is a sequence of Unicode scalar values and cannot hold a lone surrogate. So every statement about all keys covers only the keys without lone surrogates.
- Non-string `method` values are not modelled. JavaScript would coerce them in the default branch's `concat`, and a strict-equality `switch` can never match them. The key is a Dafny `string`.
- The constructor (facade.js:9-12) allocates the two gateway objects. They have no state and no identity, so they become the values `PayPal` and `Stripe` with no construction step.
- Purity and idempotence (the same call twice gives the same result) hold for every Dafny function, so no lemma states them.
