/** The return step of the checkout: after the payer approved, execute the
    payment, look up the sale of its first related resource, and report
    success only for a sale in state "completed". The web handler's
    process-wide token and payment are passed in explicitly here, and the
    two HTTP exchanges are the parameters `execute` and `lookup`. */
module SaleCheck {
  import opened Wrappers
  import opened Records
  import opened Endpoints
  import opened Responses

  /** The only sale state reported as success. */
  const CompletedState := "completed"
  /** What the return step reports on success. */
  const SuccessText := "Money transferred successfully!"

  /** The text of the failure for a sale in any other state. */
  function NotApprovedText(state: string): string
  {
    "Payment is not approved! (" + state + ")"
  }

  /** The id of the sale an executed payment produced: that of its first
      related resource. Indexing an empty list is a runtime panic. */
  function SaleIdOf(executed: PaymentResponse): (r: Result<string>)
    ensures r.Ok? <==> |executed.RelatedResources| > 0
    ensures r.Ok? ==> r.value == executed.RelatedResources[0].Sale.Id
    ensures r.Err? ==> r.error == IndexOutOfRange
  {
    if |executed.RelatedResources| == 0 then Err(IndexOutOfRange)
    else Ok(executed.RelatedResources[0].Sale.Id)
  }

  /** A sale verifies only when its state is exactly "completed"; every
      other state, pending ones included, is a failure naming that state. */
  function VerifyCompleted(sale: LookupSaleResponse): (r: Result<string>)
    ensures r.Ok? <==> sale.State == CompletedState
    ensures r.Ok? ==> r.value == SuccessText
    ensures r.Err? ==> r.error == Failure(NotApprovedText(sale.State))
  {
    if sale.State != CompletedState then Err(Failure(NotApprovedText(sale.State)))
    else Ok(SuccessText)
  }

  /** The failure text names the state it rejected: different states give
      different texts. */
  lemma NotApprovedNamesState(state: string, state': string)
    requires NotApprovedText(state) == NotApprovedText(state')
    ensures state == state'
  {
    var prefix := "Payment is not approved! (";
    var t := NotApprovedText(state);
    assert |state| == |state'|;
    assert state == t[|prefix|..|t| - 1];
    assert state' == NotApprovedText(state')[|prefix|..|t| - 1];
  }

  /** The return step: execute the approved payment, then look up and
      verify the sale of its first related resource. */
  function ConfirmReturn(
    token: string, payerId: string, paymentId: string,
    execute: Request -> Reply<PaymentResponse>,
    lookup: Request -> Reply<LookupSaleResponse>): (r: Result<string>)
    ensures r.Ok? <==>
              var executed := ExecutePaymentResult(execute(ExecuteRequest(token, payerId, paymentId)));
              executed.Ok? && |executed.value.RelatedResources| > 0 &&
              var sale := LookupSaleResult(lookup(SaleRequest(token, executed.value.RelatedResources[0].Sale.Id)));
              sale.Ok? && sale.value.State == CompletedState
    ensures r.Ok? ==> r.value == SuccessText
  {
    match ExecutePaymentResult(execute(ExecuteRequest(token, payerId, paymentId)))
    case Err(e) => Err(e)
    case Ok(executed) =>
      match SaleIdOf(executed)
      case Err(e) => Err(e)
      case Ok(saleId) =>
        match LookupSaleResult(lookup(SaleRequest(token, saleId)))
        case Err(e) => Err(e)
        case Ok(sale) => VerifyCompleted(sale)
  }
}
