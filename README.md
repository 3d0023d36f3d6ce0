# PayPal order handlers, modelled in Dafny

This project models the two serverless HTTP handlers of a small payments
back end that stands between a shop front end and PayPal's REST API:

- `api/create-order.js` takes `{amount, currency}`, obtains an OAuth2
  client-credentials token, creates a PayPal order and returns the buyer's
  approval URL and the order id;
- `api/capture-order.js` takes `{orderId}`, obtains a token and captures the
  approved order.

Each handler is a ladder of guards with early returns, two awaited provider
calls and a single `res.status(..).json(..)` write. The model keeps that
control flow and abstracts what surrounds it:

- `Exchange` (exchange.dfy) holds the inputs (`IncomingRequest`, `Env` for
  the three environment variables), the outbound requests (`OutboundRequest`
  with URL, `Basic`/`Bearer` auth, content type and payload), the provider's
  replies (`Reply`: the `ok` flag, the body text, and the body parsed as JSON
  or None when it is not JSON), and the response envelope. A `Provider`
  object answers each request from a scripted oracle (`answer`) and keeps
  the ordered log of requests issued; a `Response` object stands for `res`
  and is written at most once.
- `CreateOrder` (create_order.dfy) and `CaptureOrder` (capture_order.dfy)
  each give the handler twice: `Ladder`, a function from request,
  environment and oracle to the `Outcome` (the response written, if any, and
  the requests issued, in order), whose contract states the handler's
  promises; and `Handler`, the step-by-step method over `Provider` and
  `Response`, proved to append exactly `Ladder(..).requests` to the log and
  to write exactly `Ladder(..).response`.
- `Scenarios` (scenarios.dfy) relates the two handlers and works through
  concrete runs.

The handlers do less than such a façade might be expected to; the model
follows the code:

- the currency is sent as the caller wrote it, not upper-cased;
- the create-order success body is `{approvalUrl, orderId}` with no `mode`;
- a 2xx token body without `access_token` is not rejected: the next call
  goes out with `Bearer` of an undefined token;
- capture-order has no credential guard, always uses the sandbox host,
  sends no idempotency header, and has no `try`, so some failures end the
  handler without a response (modelled as `Outcome.response == None`).

## Model

| member | source | states |
|---|---|---|
| `CreateOrder.ModeOf` | api/create-order.js:20 | the mode is live exactly when PAYPAL_MODE is the string "live"; unset or any other value gives sandbox |
| `CreateOrder.FindApprove` | api/create-order.js:97-98 | None exactly when no link has rel "approve"; otherwise a link with rel "approve" at an index before which no link has that rel |
| `CreateOrder.FindApproveFirst` | api/create-order.js:97-98 | whatever follows, the link returned is the first approve link after links that are not approve links |
| `CreateOrder.Ladder` | api/create-order.js:4-118 | a response is always written after at most two calls; 405, then 400 for a falsy amount or currency, then 500 for missing credentials, each with no call; calls are made exactly when all three guards pass; the first is the token call to the host the mode selects; a non-ok token reply gives 500 "Failed to get access token" with the raw text and no second call; the order call (intent CAPTURE, one purchase unit with the caller's currency and amount unchanged, Bearer of the token body's `access_token`, same base URL) is made exactly when the token reply is ok and JSON; a non-ok order reply gives 500 with the raw text; a non-JSON body gives the 500 server-exception envelope; no approve link gives 500 "No approval link returned from PayPal"; 200 exactly when an approve link came back, with its href and the body's id |
| `CreateOrder.Handler` | api/create-order.js:4-118 | the provider log grows by exactly the requests of `Ladder`, in order, and the response written is that of `Ladder` |
| `CaptureOrder.Ladder` | api/capture-order.js:2-65 | at most two calls, all to the sandbox host; 405 for a non-POST method and 400 "Missing orderId" for a falsy order id, each with no call; an absent body throws with no call; a token call is made whenever these guards pass, whatever the credentials; a non-ok token reply gives 500 "Failed to get access token" with the raw text and no capture call; the capture call (order id in the URL, Bearer of `access_token`, no body) is made exactly when the token reply is ok and JSON; a JSON capture reply gives 200 "Order captured successfully" or 500 "Failed to capture order", with the parsed body as details either way; nothing is written exactly when a step throws |
| `CaptureOrder.Handler` | api/capture-order.js:2-65 | the provider log grows by exactly the requests of `Ladder`, in order, and the response written (or its absence) is that of `Ladder` |
| `CaptureOrder.CaptureUrlVerbatim` | api/capture-order.js:42-43 | the capture URL is the orders prefix, the order id unchanged, then "/capture" |
| `CaptureOrder.CaptureUrlInjective` | api/capture-order.js:43 | two order ids with the same capture URL are equal |
| `CaptureOrder.IgnoresMode` | api/capture-order.js:14-51 | changing PAYPAL_MODE changes nothing in a capture's outcome |
| `Scenarios.TokenRequestsAgree` | api/create-order.js:29-44 | outside live mode create-order's token request equals capture-order's; in live mode they differ |
| `Scenarios.MethodGuardAgree` | api/create-order.js:5-7 | both handlers answer a non-POST method with the same 405 envelope and no call |
| `Scenarios.LowerCaseCurrencyScenario` | api/create-order.js:60-110 | amount "24.00" and currency "usd" go out as "24.00" and "usd"; the answer is 200 with the approval URL and order id only |
| `Scenarios.RefusedCaptureScenario` | api/capture-order.js:42-58 | a refused capture answers 500 "Failed to capture order" with the parsed refusal, after exactly the token and capture calls |
| `Exchange.Provider.Fetch` | api/create-order.js:37-44 | an awaited fetch appends its request to the log and returns the oracle's reply |
| `Exchange.Response.Send` | api/create-order.js:107-110 | `res.status(..).json(..)` records the status and envelope, once |

## Left out

- Transport: `fetch`/`node-fetch`, HTTP status codes other than the `ok`
  flag, timeouts and network errors (a rejected `fetch` would reach
  create-order's catch, or escape capture-order); the provider is a total
  oracle from request to reply.
- JSON: parsing and serialisation are abstract; a parsed body is a record of
  `access_token`, `id` and `links`. JSON that is not an object (such as
  `null`), a link without `rel` or `href`, a body without `id`, and a
  `links` value that is not an array are not modelled.
- Base64: the `Basic` header is kept as the pair of raw environment values
  it encodes. The pair is finer than the header: an undefined value and the
  string "undefined", or ("a:b", "c") and ("a", "b:c"), give the same header
  but different model requests, which the oracle may answer differently.
- `String(err)` of a caught exception is the opaque `ExceptionText`.
- `console.error` logging, which does not affect the response.
- Reading `process.env`: the three variables are the `Env` input.
- JavaScript truthiness beyond strings: request members are absent or
  strings, and "" is falsy; numbers and other JSON values are not modelled.
- What the hosting platform sends when capture-order throws (absent body,
  a token or capture body that is not JSON) is not modelled; the model
  records only that the handler wrote nothing.
