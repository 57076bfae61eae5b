/** Assembly of the payment request that creating a payment posts.
    Go's `float64` and its `+` and the `"%.2f"` price formatter are not
    modelled: they are the parameters `add` and `price`, over any number
    type `Num`. */
module PaymentRequests {
  import opened Records

  /** The only intent the client ever requests. */
  const SaleIntent := "sale"
  /** The only payment method the client ever requests. */
  const PayPalMethod := "paypal"

  /** The total as the client computes it: `subtotal + tax + shipping`,
      added left to right in the number domain, before any formatting. */
  function Sum<Num>(add: (Num, Num) -> Num, subtotal: Num, tax: Num, shipping: Num): Num
  {
    add(add(subtotal, tax), shipping)
  }

  /** The request record built for a payment of these amounts. */
  function NewPaymentRequest<Num>(
    price: Num -> string, add: (Num, Num) -> Num,
    subtotal: Num, tax: Num, shipping: Num, currency: string,
    description: string,
    returnUrl: string, cancelUrl: string): (r: PaymentRequest)
    ensures r.Intent == SaleIntent && r.Payer.PaymentMethod == PayPalMethod
    ensures r.RedirectUrls.ReturnUrl == returnUrl && r.RedirectUrls.CancelUrl == cancelUrl
    ensures |r.Transactions| == 1
    ensures r.Transactions[0].Description == description
    ensures r.Transactions[0].Amount.Currency == currency
    ensures r.Transactions[0].Amount.Total == price(Sum(add, subtotal, tax, shipping))
    ensures r.Transactions[0].Amount.Details.Subtotal == price(subtotal)
    ensures r.Transactions[0].Amount.Details.Tax == price(tax)
    ensures r.Transactions[0].Amount.Details.Shipping == price(shipping)
  {
    var total := Sum(add, subtotal, tax, shipping);
    PaymentRequest(
      SaleIntent,
      PaymentUrls(returnUrl, cancelUrl),
      PaymentPayer(PayPalMethod),
      [PaymentTransaction(
         PaymentAmount(
           price(total),
           currency,
           PaymentAmountDetails(price(subtotal), price(tax), price(shipping))),
         description)])
  }

  /** The total is formatted from the unformatted sum, never from the
      formatted parts: two payments whose amounts add up to the same number
      carry the same total text, however the parts differ or format. */
  lemma TotalFollowsSum<Num>(
    price: Num -> string, add: (Num, Num) -> Num,
    s1: Num, t1: Num, h1: Num, s2: Num, t2: Num, h2: Num,
    currency: string, description: string, returnUrl: string, cancelUrl: string)
    requires Sum(add, s1, t1, h1) == Sum(add, s2, t2, h2)
    ensures NewPaymentRequest(price, add, s1, t1, h1, currency, description, returnUrl, cancelUrl)
              .Transactions[0].Amount.Total ==
            NewPaymentRequest(price, add, s2, t2, h2, currency, description, returnUrl, cancelUrl)
              .Transactions[0].Amount.Total
  {
  }

  /** Each detail field depends on its own input only: changing the tax
      changes neither the subtotal nor the shipping text. */
  lemma DetailsAreSeparate<Num>(
    price: Num -> string, add: (Num, Num) -> Num,
    subtotal: Num, tax: Num, tax': Num, shipping: Num,
    currency: string, description: string, returnUrl: string, cancelUrl: string)
    ensures var d := NewPaymentRequest(price, add, subtotal, tax, shipping, currency, description, returnUrl, cancelUrl)
                       .Transactions[0].Amount.Details;
            var d' := NewPaymentRequest(price, add, subtotal, tax', shipping, currency, description, returnUrl, cancelUrl)
                       .Transactions[0].Amount.Details;
            d.Subtotal == d'.Subtotal && d.Shipping == d'.Shipping
  {
  }
}
