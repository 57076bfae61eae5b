/** The HTTP requests the client sends: endpoint URLs, authentication and
    bodies. The execute body is built by plain concatenation, without the
    string escaping JSON requires, and is modelled that way. */
module Endpoints {
  import opened Wrappers
  import opened Records

  const TokenUrl := "https://api.sandbox.paypal.com/v1/oauth2/token"
  const PaymentUrl := "https://api.sandbox.paypal.com/v1/payments/payment"
  const ExecutePrefix := "https://api.sandbox.paypal.com/v1/payments/payment/"
  const ExecuteSuffix := "/execute"
  const SalePrefix := "https://api.sandbox.paypal.com/v1/payments/sale/"
  const PayerIdOpen := "{ \"payer_id\": \""
  const PayerIdClose := "\" }"
  const ClientCredentialsForm := "grant_type=client_credentials"

  /** How a request authenticates: HTTP Basic with the client credentials
      for the token, the bearer token for every other call. */
  datatype Auth = Basic(clientId: string, secret: string) | Bearer(token: string)

  /** A request body: none, literal text, or the JSON encoding of a
      payment request (the encoding itself is not modelled). */
  datatype Body = NoBody | Text(text: string) | Json(payment: PaymentRequest)

  datatype Request = Request(verb: string, url: string, auth: Auth, body: Body)

  // --- URL and body strings ---

  /** The URL that executes payment `paymentId`. */
  function ExecuteUrl(paymentId: string): (url: string)
    ensures |url| == |ExecutePrefix| + |paymentId| + |ExecuteSuffix|
    ensures url[..|ExecutePrefix|] == ExecutePrefix
    ensures url[|ExecutePrefix|..|ExecutePrefix| + |paymentId|] == paymentId
    ensures url[|ExecutePrefix| + |paymentId|..] == ExecuteSuffix
  {
    ExecutePrefix + paymentId + ExecuteSuffix
  }

  /** The JSON-looking body that carries the payer id, unescaped. */
  function ExecuteBody(payerId: string): (body: string)
    ensures |body| == |PayerIdOpen| + |payerId| + |PayerIdClose|
    ensures body[..|PayerIdOpen|] == PayerIdOpen
    ensures body[|PayerIdOpen|..|PayerIdOpen| + |payerId|] == payerId
    ensures body[|PayerIdOpen| + |payerId|..] == PayerIdClose
  {
    PayerIdOpen + payerId + PayerIdClose
  }

  /** The URL of sale `transactionId`. */
  function SaleUrl(transactionId: string): (url: string)
    ensures |url| == |SalePrefix| + |transactionId|
    ensures url[..|SalePrefix|] == SalePrefix
    ensures url[|SalePrefix|..] == transactionId
  {
    SalePrefix + transactionId
  }

  // --- inverses: reading the ids back out of the strings ---

  /** Whether `s` starts with `prefix` and ends with `suffix`, the two not overlapping. */
  predicate Framed(s: string, prefix: string, suffix: string)
  {
    |prefix| + |suffix| <= |s| && s[..|prefix|] == prefix && s[|s| - |suffix|..] == suffix
  }

  /** The part of `s` between `prefix` and `suffix`, if `s` has that frame. */
  function Unframe(s: string, prefix: string, suffix: string): (r: Option<string>)
    ensures r.Some? <==> Framed(s, prefix, suffix)
    ensures r.Some? ==> prefix + r.value + suffix == s
  {
    if Framed(s, prefix, suffix) then
      var inner := s[|prefix|..|s| - |suffix|];
      assert prefix + inner + suffix == s[..|prefix|] + s[|prefix|..|s| - |suffix|] + s[|s| - |suffix|..];
      Some(inner)
    else None
  }

  lemma UnframeFramed(prefix: string, inner: string, suffix: string)
    ensures Unframe(prefix + inner + suffix, prefix, suffix) == Some(inner)
  {
  }

  /** The payment id an execute URL names, if it is one. */
  function PaymentIdOfExecuteUrl(url: string): Option<string>
  {
    Unframe(url, ExecutePrefix, ExecuteSuffix)
  }

  /** The payer id an execute body carries, if it has the body's frame. */
  function PayerIdOfExecuteBody(body: string): Option<string>
  {
    Unframe(body, PayerIdOpen, PayerIdClose)
  }

  /** The transaction id a sale URL names, if it is one. */
  function TransactionIdOfSaleUrl(url: string): Option<string>
  {
    Unframe(url, SalePrefix, "")
  }

  /** The execute URL round-trips: the payment id is read back unchanged,
      and every URL that reads back as `id` is the execute URL of `id`. */
  lemma ExecuteUrlRoundTrip(paymentId: string, url: string)
    ensures PaymentIdOfExecuteUrl(ExecuteUrl(paymentId)) == Some(paymentId)
    ensures PaymentIdOfExecuteUrl(url) == Some(paymentId) ==> url == ExecuteUrl(paymentId)
  {
    UnframeFramed(ExecutePrefix, paymentId, ExecuteSuffix);
  }

  /** The execute body round-trips in the same way. */
  lemma ExecuteBodyRoundTrip(payerId: string, body: string)
    ensures PayerIdOfExecuteBody(ExecuteBody(payerId)) == Some(payerId)
    ensures PayerIdOfExecuteBody(body) == Some(payerId) ==> body == ExecuteBody(payerId)
  {
    UnframeFramed(PayerIdOpen, payerId, PayerIdClose);
  }

  /** The sale URL round-trips in the same way. */
  lemma SaleUrlRoundTrip(transactionId: string, url: string)
    ensures TransactionIdOfSaleUrl(SaleUrl(transactionId)) == Some(transactionId)
    ensures TransactionIdOfSaleUrl(url) == Some(transactionId) ==> url == SaleUrl(transactionId)
  {
    assert SaleUrl(transactionId) == SalePrefix + transactionId + "";
    UnframeFramed(SalePrefix, transactionId, "");
    if TransactionIdOfSaleUrl(url) == Some(transactionId) {
      assert SalePrefix + transactionId + "" == SalePrefix + transactionId;
    }
  }

  // --- no escaping ---

  /** The payer id is copied into the body without escaping. The JSON
      string the frame opens runs up to the first double quote not preceded
      by a backslash; for an id `a + "\"" + b` whose part `a` has neither a
      quote nor a backslash, that quote is the one from the id, before the
      frame's own closing quote. So the string ends inside the id, and `b`
      lands in the body as JSON text outside any string. */
  lemma PayerIdQuoteEndsString(a: string, b: string)
    requires '"' !in a && '\\' !in a
    ensures var body := ExecuteBody(a + "\"" + b);
            var k := |PayerIdOpen| + |a|;
            body[|PayerIdOpen| - 1] == '"' &&
            k < |body| - |PayerIdClose| && body[k] == '"' &&
            forall i :: |PayerIdOpen| <= i < k ==> body[i] != '"' && body[i] != '\\'
  {
    var id := a + "\"" + b;
    var body := ExecuteBody(id);
    var k := |PayerIdOpen| + |a|;
    assert body[|PayerIdOpen|..k] == a by {
      assert body[|PayerIdOpen|..|PayerIdOpen| + |id|][..|a|] == id[..|a|] == a;
    }
    assert body[k] == id[|a|] == '"';
    forall i | |PayerIdOpen| <= i < k
      ensures body[i] != '"' && body[i] != '\\'
    {
      assert body[i] == a[i - |PayerIdOpen|];
    }
  }

  // --- the requests ---

  /** The token request: a form POST of the client-credentials grant,
      authenticated with HTTP Basic. */
  function TokenRequest(clientId: string, secret: string): (r: Request)
    ensures r.verb == "POST" && r.url == TokenUrl
    ensures r.auth == Basic(clientId, secret)
    ensures r.body == Text(ClientCredentialsForm)
  {
    Request("POST", TokenUrl, Basic(clientId, secret), Text(ClientCredentialsForm))
  }

  /** The payment-creation request: the payment request as JSON, posted
      with the bearer token. */
  function CreateRequest(token: string, payment: PaymentRequest): (r: Request)
    ensures r.verb == "POST" && r.url == PaymentUrl
    ensures r.auth == Bearer(token) && r.body == Json(payment)
  {
    Request("POST", PaymentUrl, Bearer(token), Json(payment))
  }

  /** The execute request for `paymentId` on behalf of `payerId`. Note the
      order of the two ids, payer first, as the client takes them. */
  function ExecuteRequest(token: string, payerId: string, paymentId: string): (r: Request)
    ensures r.verb == "POST" && r.auth == Bearer(token)
    ensures PaymentIdOfExecuteUrl(r.url) == Some(paymentId)
    ensures r.body.Text? && PayerIdOfExecuteBody(r.body.text) == Some(payerId)
  {
    ExecuteUrlRoundTrip(paymentId, "");
    ExecuteBodyRoundTrip(payerId, "");
    Request("POST", ExecuteUrl(paymentId), Bearer(token), Text(ExecuteBody(payerId)))
  }

  /** The sale-lookup request: a GET of the sale's URL, without a body. */
  function SaleRequest(token: string, transactionId: string): (r: Request)
    ensures r.verb == "GET" && r.auth == Bearer(token) && r.body == NoBody
    ensures TransactionIdOfSaleUrl(r.url) == Some(transactionId)
  {
    SaleUrlRoundTrip(transactionId, "");
    Request("GET", SaleUrl(transactionId), Bearer(token), NoBody)
  }
}
