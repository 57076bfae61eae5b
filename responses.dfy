/** How each call turns what came back from the gateway into a result or
    an error. The HTTP exchange itself is not modelled: a `Reply` is what it
    produced, with the outcome of JSON-decoding the body given as an input. */
module Responses {
  import opened Wrappers
  import opened Records

  /** What one HTTP exchange produced. `status` is Go's status line text
      (such as "401 Unauthorized"), `statusCode` its number, `body` the raw
      body, and `decoded` the record the JSON decoder made of the body, or
      `None` when it rejected it. */
  datatype Reply<T> =
    | TransportFailed(reason: string)
    | Response(statusCode: int, status: string, body: string, decoded: Option<T>)

  /** The status codes each call treats as success. */
  predicate TokenAccepts(code: int) { code == 200 }
  predicate CreateAccepts(code: int) { code == 201 }
  predicate ExecuteAccepts(code: int) { 200 <= code <= 299 }
  predicate SaleAccepts(code: int) { code == 200 }

  /** The text of the error a rejected payment creation returns: the status,
      then ": ", then the raw body verbatim. */
  function CreationErrorText(status: string, body: string): (text: string)
    ensures |text| == |status| + 2 + |body|
    ensures text[..|status|] == status && text[|status|..|status| + 2] == ": "
    ensures text[|status| + 2..] == body
  {
    status + ": " + body
  }

  /** Getting a token yields the decoded access token on status 200 only. */
  function GetTokenResult(reply: Reply<TokenResponse>): (r: Result<string>)
    ensures reply.TransportFailed? ==> r == Err(Transport(reply.reason))
    ensures reply.Response? ==>
              (r.Ok? <==> TokenAccepts(reply.statusCode) && reply.decoded.Some?)
    ensures r.Ok? ==> reply.Response? && r.value == reply.decoded.value.AccessToken
    ensures reply.Response? && TokenAccepts(reply.statusCode) && reply.decoded.None? ==> r == Err(Decode)
    ensures reply.Response? && !TokenAccepts(reply.statusCode) ==> r == Err(Failure(reply.status))
  {
    match reply
    case TransportFailed(reason) => Err(Transport(reason))
    case Response(code, status, _, decoded) =>
      if code == 200 then
        match decoded
        case None => Err(Decode)
        case Some(t) => Ok(t.AccessToken)
      else Err(Failure(status))
  }

  /** Creating a payment yields the decoded payment on status 201 only; any
      other status is an error that keeps the body. Creation unmarshals into
      a pointer variable, so its decoder has three outcomes: rejected
      (`None`), the JSON literal `null`, which sets the pointer to nil
      (`Some(None)`), or a record (`Some(Some(p))`). A nil payment comes
      back as `Ok(None)`: no payment, and no error either. */
  function CreatePaymentResult(reply: Reply<Option<PaymentResponse>>): (r: Result<Option<PaymentResponse>>)
    ensures reply.TransportFailed? ==> r == Err(Transport(reply.reason))
    ensures reply.Response? ==>
              (r.Ok? <==> CreateAccepts(reply.statusCode) && reply.decoded.Some?)
    ensures r.Ok? ==> reply.Response? && reply.decoded == Some(r.value)
    ensures reply.Response? && CreateAccepts(reply.statusCode) && reply.decoded == Some(None) ==> r == Ok(None)
    ensures reply.Response? && CreateAccepts(reply.statusCode) && reply.decoded.None? ==> r == Err(Decode)
    ensures reply.Response? && !CreateAccepts(reply.statusCode) ==>
              r == Err(Failure(CreationErrorText(reply.status, reply.body)))
  {
    match reply
    case TransportFailed(reason) => Err(Transport(reason))
    case Response(code, status, body, decoded) =>
      if code == 201 then
        match decoded
        case None => Err(Decode)
        case Some(p) => Ok(p)
      else Err(Failure(CreationErrorText(status, body)))
  }

  /** Executing a payment yields the decoded payment on any 2xx status. */
  function ExecutePaymentResult(reply: Reply<PaymentResponse>): (r: Result<PaymentResponse>)
    ensures reply.TransportFailed? ==> r == Err(Transport(reply.reason))
    ensures reply.Response? ==>
              (r.Ok? <==> ExecuteAccepts(reply.statusCode) && reply.decoded.Some?)
    ensures r.Ok? ==> reply.Response? && reply.decoded == Some(r.value)
    ensures reply.Response? && ExecuteAccepts(reply.statusCode) && reply.decoded.None? ==> r == Err(Decode)
    ensures reply.Response? && !ExecuteAccepts(reply.statusCode) ==> r == Err(Failure(reply.status))
  {
    match reply
    case TransportFailed(reason) => Err(Transport(reason))
    case Response(code, status, _, decoded) =>
      if code >= 200 && code <= 299 then
        match decoded
        case None => Err(Decode)
        case Some(p) => Ok(p)
      else Err(Failure(status))
  }

  /** Looking up a sale yields the decoded sale on status 200 only. */
  function LookupSaleResult(reply: Reply<LookupSaleResponse>): (r: Result<LookupSaleResponse>)
    ensures reply.TransportFailed? ==> r == Err(Transport(reply.reason))
    ensures reply.Response? ==>
              (r.Ok? <==> SaleAccepts(reply.statusCode) && reply.decoded.Some?)
    ensures r.Ok? ==> reply.Response? && reply.decoded == Some(r.value)
    ensures reply.Response? && SaleAccepts(reply.statusCode) && reply.decoded.None? ==> r == Err(Decode)
    ensures reply.Response? && !SaleAccepts(reply.statusCode) ==> r == Err(Failure(reply.status))
  {
    match reply
    case TransportFailed(reason) => Err(Transport(reason))
    case Response(code, status, _, decoded) =>
      if code == 200 then
        match decoded
        case None => Err(Decode)
        case Some(s) => Ok(s)
      else Err(Failure(status))
  }

  /** A rejected creation loses nothing: the status and the body can both
      be read back from the error, so two different bodies under the same
      status never give the same error. */
  lemma CreationErrorKeepsBody(reply: Reply<Option<PaymentResponse>>, reply': Reply<Option<PaymentResponse>>)
    requires reply.Response? && !CreateAccepts(reply.statusCode)
    requires reply'.Response? && !CreateAccepts(reply'.statusCode)
    requires reply.status == reply'.status
    requires CreatePaymentResult(reply) == CreatePaymentResult(reply')
    ensures reply.body == reply'.body
  {
  }
}
