/** The request and response records exchanged with the Payments REST API.
    Field names follow the Go structs; the `time.Time` fields are left out. */
module Records {

  datatype TokenResponse = TokenResponse(
    Scope: string,
    AccessToken: string,
    TokenType: string,
    AppId: string,
    ExpiresIn: int)

  // --- payment request ---

  datatype PaymentUrls = PaymentUrls(ReturnUrl: string, CancelUrl: string)

  datatype PaymentPayer = PaymentPayer(PaymentMethod: string)

  datatype PaymentAmountDetails = PaymentAmountDetails(Subtotal: string, Tax: string, Shipping: string)

  datatype PaymentAmount = PaymentAmount(Total: string, Currency: string, Details: PaymentAmountDetails)

  datatype PaymentTransaction = PaymentTransaction(Amount: PaymentAmount, Description: string)

  datatype PaymentRequest = PaymentRequest(
    Intent: string,
    RedirectUrls: PaymentUrls,
    Payer: PaymentPayer,
    Transactions: seq<PaymentTransaction>)

  // --- payment response ---

  datatype PaymentLink = PaymentLink(Href: string, Rel: string, Method: string)

  datatype LookupSaleResponse = LookupSaleResponse(
    Id: string,
    State: string,
    Amount: PaymentAmount,
    ParentPayment: string,
    Links: seq<PaymentLink>)

  datatype Resource = Resource(Sale: LookupSaleResponse)

  datatype PaymentResponse = PaymentResponse(
    Id: string,
    State: string,
    Intent: string,
    Payer: PaymentPayer,
    Transactions: seq<PaymentTransaction>,
    Links: seq<PaymentLink>,
    RelatedResources: seq<Resource>)
}
