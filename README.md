# PayPal Payments REST client — a Dafny model

This project models the decision-making and data-shaping of a small Go client
for PayPal's "Payments" REST API (`pp.go`). The client obtains an access
token, creates a payment with intent "sale", finds the approval link to send
the payer to, executes the payment once the payer has approved, looks up the
resulting sale and reports success only for a sale in state "completed".

Everything here is datatypes and pure functions, except the approval-link
lookup, which the source writes as a scanning loop with an early return and
which is therefore a method with a loop proved against a specification
function. The HTTP exchange is not modelled: each call's reply is an input
value `Reply` holding the status code, the status text, the raw body and the
outcome of JSON-decoding the body (`None` when the decoder rejected it).
Go's `(value, error)` pairs are `Result` values: `Ok(v)` is `(v, nil)`, and
`Err(e)` is the zero value with a non-nil error, which no caller can use.

Modules, one per concern of `pp.go`:

- `Wrappers` (`wrappers.dfy`): `Option`, `Result` and the `Error` kinds
  (an `errors.New` text, a decoder error, a transport error, an index panic,
  a nil-dereference panic).
- `Records` (`records.dfy`): the request and response structs.
- `Approval` (`approval.dfy`): the approval-link lookup.
- `PaymentRequests` (`payment_request.dfy`): assembly of the payment request.
  The float64 sum and the `"%.2f"` formatter are parameters `add` and `price`.
- `Endpoints` (`endpoints.dfy`): URLs, the execute body, and the four
  requests. It also has the inverse readers that prove the strings carry
  their ids intact.
- `Responses` (`responses.dfy`): how each call classifies a reply.
- `SaleCheck` (`sale_check.dfy`): the return step. It executes the payment,
  takes the sale id from the first related resource, looks up that sale and
  accepts only "completed".

Errors carry what `pp.go` puts in them:

- A rejected token request's error carries only the status text (pp.go:139).
- Only payment creation keeps the response body in its error (pp.go:220).
- `Failure(text)` carries the text `pp.go` builds; the decoder, transport
  and runtime errors are kept as kinds only.

## Model

| member | source | states |
|---|---|---|
| `Approval.FirstApproval` | pp.go:99-103 | the index found is that of a link with relation exactly "approval_url", and no earlier link has that relation; it is the list length when none has |
| `Approval.ApprovalOf` | pp.go:98-105 | resolution succeeds exactly when some link has relation "approval_url"; otherwise the error is "No approval_url foundi!" |
| `Approval.ApprovalUrl` | pp.go:98-105 | the loop returns the href of the first link, in list order, tagged "approval_url"; it fails with "No approval_url foundi!" exactly when no link is, the empty list included; it agrees with `ApprovalOf`; called on a nil payment (what creation returns for a `null` body) it is a nil-dereference panic |
| `Approval.SkipsOtherLinks` | pp.go:99-103 | links placed in front that lack the approval relation, whatever their relation, do not change the href found |
| `Approval.FirstMatchWins` | pp.go:100-101 | once a list has an approval link, links appended after it, even other approval links, do not change the href found |
| `PaymentRequests.NewPaymentRequest` | pp.go:148-174 | the request always has intent "sale", payer method "paypal", the given return and cancel URLs, and exactly one transaction with the given currency and description; its total is the formatted sum `subtotal+tax+shipping` taken once before formatting, and each detail is the formatted value of its own input |
| `PaymentRequests.TotalFollowsSum` | pp.go:148-163 | corollary of `NewPaymentRequest`: the total text depends on the unformatted sum only, so two payments with the same sum carry the same total, whatever their parts |
| `PaymentRequests.DetailsAreSeparate` | pp.go:165-169 | corollary of `NewPaymentRequest`: changing the tax changes neither the subtotal nor the shipping text |
| `Endpoints.ExecuteUrl` | pp.go:225 | the execute URL is the fixed prefix, then the payment id verbatim, then "/execute" |
| `Endpoints.ExecuteBody` | pp.go:226 | the execute body is `{ "payer_id": "`, then the payer id verbatim, then `" }` |
| `Endpoints.SaleUrl` | pp.go:256 | the sale URL is the fixed prefix, then the transaction id verbatim |
| `Endpoints.Unframe` | pp.go:225-226 | specification helper for the round trips, not code of the client: reading the text between a prefix and a suffix succeeds exactly when the string has that frame, and framing the result gives the string back |
| `Endpoints.ExecuteUrlRoundTrip` | pp.go:225 | the payment id is read back unchanged from its execute URL, and any URL that reads back as an id is that id's execute URL |
| `Endpoints.ExecuteBodyRoundTrip` | pp.go:226 | the payer id is read back unchanged from its body, and any body that reads back as an id is that id's body |
| `Endpoints.SaleUrlRoundTrip` | pp.go:256 | the transaction id is read back unchanged from its sale URL, and any URL that reads back as an id is that id's sale URL |
| `Endpoints.PayerIdQuoteEndsString` | pp.go:226 | the payer id is copied without escaping: for an id whose first double quote comes before any backslash, the JSON string the body opens ends at that quote, inside the id and before the frame's own closing quote, so the rest of the id lands outside the string |
| `Endpoints.TokenRequest` | pp.go:108-119 | the token request posts the form `grant_type=client_credentials` to the token URL with HTTP Basic authentication by the client id and secret |
| `Endpoints.CreateRequest` | pp.go:178-194 | payment creation posts the request record as JSON to the payment URL with the bearer token |
| `Endpoints.ExecuteRequest` | pp.go:224-233 | execution is a POST with the bearer token, whose URL names the payment id and whose body carries the payer id, both readable back |
| `Endpoints.SaleRequest` | pp.go:255-263 | the sale lookup is a GET without a body, with the bearer token, whose URL names the transaction id |
| `Responses.CreationErrorText` | pp.go:220 | the creation error text is the status, then ": ", then the raw body verbatim |
| `Responses.GetTokenResult` | pp.go:123-139 | a token is returned, the decoded access token, exactly on status 200 with a body the decoder accepts; a decode failure on 200 is a decoder error; any other status is an error with the status text; transport errors pass through |
| `Responses.CreatePaymentResult` | pp.go:198-220 | the decoder's outcome is returned exactly on status 201 with a body the decoder accepts; a JSON `null` body there gives a nil payment without an error; a decode failure on 201 is a decoder error; any other status is an error carrying the status and the raw body; transport errors pass through |
| `Responses.ExecutePaymentResult` | pp.go:236-251 | the decoded payment is returned exactly on a status in 200..299 with a decodable body; a decode failure there is a decoder error; any other status is an error with the status text only |
| `Responses.LookupSaleResult` | pp.go:266-281 | the decoded sale is returned exactly on status 200 with a decodable body; a decode failure on 200 is a decoder error; any other status is an error with the status text only |
| `Responses.CreationErrorKeepsBody` | pp.go:220 | two rejected creations with the same status give the same error only if their bodies are equal: the body is retained, not summarised |
| `SaleCheck.SaleIdOf` | pp.go:364 | the sale id is that of the first related resource of the executed payment; with no related resource the lookup is an index panic |
| `SaleCheck.VerifyCompleted` | pp.go:369-374 | a sale verifies exactly when its state is "completed"; every other state fails with "Payment is not approved! (<state>)" |
| `SaleCheck.NotApprovedNamesState` | pp.go:370 | the failure text determines the rejected state: different states give different texts |
| `SaleCheck.ConfirmReturn` | pp.go:354-374 | the return step succeeds, with "Money transferred successfully!", exactly when execution succeeds, the executed payment has a related resource, and the lookup of its sale succeeds with state "completed" |

## Left out

- HTTP transport (building requests, sending them, headers other than the
  authentication scheme, reading the body): network I/O. Each call's result
  is the input `Reply`, and any transport failure is `TransportFailed`,
  passed through as an error.
- JSON encoding and decoding: foreign library calls. The decoder's outcome
  is the `decoded` field of a reply (for creation, which unmarshals into a
  pointer, it may also be a nil payment), and the payment request is sent as
  `Json(request)`. The decoder's own error texts are not modelled. Neither
  is the gateway's choice of response fields, such as the state "created"
  of a new payment.
- The `time.Time` fields `CreateTime` and `UpdateTime` of payments and sales:
  they take no part in any decision.
- `toPayPalPrice` and float64 addition: floating-point numerics. They are
  the parameters `price` and `add`, so rounding behaviour is not modelled.
- Basic authentication's encoding of the client id and secret: the model
  keeps the pair itself.
- `main`, its web routes and the variables its handlers share: web-server
  plumbing. `ConfirmReturn` models the `/ok` handler's logic with the
  token, payer id and payment id passed in explicitly, and without reading
  the query string. The `/` handler's chain (token, creation, redirect) is
  not modelled as a whole; its steps are.
- `fetchEnvVars` and `fetchEnvVarsParam`: environment I/O whose error values
  are discarded, so they have no behaviour to state.
- Logging with `fmt.Print` and `fmt.Printf`.
