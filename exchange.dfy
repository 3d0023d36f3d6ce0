/** The world both payment handlers live in: the incoming HTTP request, the
    server configuration, the requests sent to the payment provider together
    with its scripted replies, and the single JSON response the handler writes.
    Network transport, JSON text and base64 are abstracted: a parsed provider
    body is a record of the members the handlers read, and HTTP Basic
    credentials are kept as the pair they encode. */
module Exchange {

  datatype Option<+T> = None | Some(value: T) {
    function GetOr(default: T): T {
      match this
      case Some(v) => v
      case None => default
    }
  }

  /** JavaScript truthiness of a value that is either undefined or a string:
      undefined and "" are falsy, every other string is truthy. */
  predicate Truthy(v: Option<string>) {
    v.Some? && v.value != ""
  }

  // ---------------------------------------------------------------------
  // Inputs of a handler

  /** The members of `req.body` that the two handlers destructure. */
  datatype RequestBody = RequestBody(amount: Option<string>, currency: Option<string>, orderId: Option<string>)

  const EMPTY_BODY := RequestBody(None, None, None)

  /** `req.method` (as `verb`) and `req.body`; a body that is `undefined` or `null` is None. */
  datatype IncomingRequest = IncomingRequest(verb: string, body: Option<RequestBody>)

  /** The environment variables PAYPAL_CLIENT_ID, PAYPAL_CLIENT_SECRET and PAYPAL_MODE. */
  datatype Env = Env(clientId: Option<string>, clientSecret: Option<string>, mode: Option<string>)

  // ---------------------------------------------------------------------
  // Requests to the provider

  /** The Authorization header. `Basic` holds the two raw environment values
      whose `clientId + ":" + clientSecret` is base64-encoded; `Bearer`
      carries `access_token` of the token body, which may be undefined. */
  datatype Auth = Basic(clientId: Option<string>, clientSecret: Option<string>) | Bearer(token: Option<string>)

  const FORM_ENCODED := "application/x-www-form-urlencoded"
  const JSON_TYPE := "application/json"

  datatype PurchaseUnit = PurchaseUnit(currencyCode: string, value: string)

  datatype ApplicationContext = ApplicationContext(brandName: string, returnUrl: string, cancelUrl: string)

  /** The request body sent to the provider. */
  datatype Payload =
    | ClientCredentialsGrant    // "grant_type=client_credentials"
    | OrderBody(intent: string, purchaseUnits: seq<PurchaseUnit>, context: ApplicationContext)
    | NoPayload

  /** A POST request to the provider (both handlers only ever POST). */
  datatype OutboundRequest = Post(url: string, auth: Auth, contentType: string, payload: Payload)

  /** The client-credentials token request both handlers build. */
  function TokenRequest(tokenUrl: string, env: Env): OutboundRequest {
    Post(tokenUrl, Basic(env.clientId, env.clientSecret), FORM_ENCODED, ClientCredentialsGrant)
  }

  // ---------------------------------------------------------------------
  // Replies of the provider

  datatype Link = Link(rel: string, href: string)

  /** A parsed provider JSON object, seen through the members the handlers
      read: `access_token` of a token body, `id` and `links` of an order body.
      A capture body is echoed to the caller whole. */
  datatype JsonBody = JsonBody(accessToken: Option<string>, id: string, links: Option<seq<Link>>)

  /** What `fetch` resolves to: `response.ok` (a 2xx status), the body text,
      and that text parsed as JSON, None when it is not JSON. */
  datatype Reply = Reply(ok: bool, text: string, parsed: Option<JsonBody>)

  /** The provider: a scripted oracle giving the reply to every request, and
      the ordered log of the requests issued so far. */
  class Provider {
    const answer: OutboundRequest -> Reply
    var log: seq<OutboundRequest>

    constructor (answer: OutboundRequest -> Reply)
      ensures this.answer == answer && log == []
    {
      this.answer := answer;
      log := [];
    }

    /** `await fetch(url, options)`: the request is recorded, the scripted reply returned. */
    method Fetch(r: OutboundRequest) returns (reply: Reply)
      modifies this
      ensures log == old(log) + [r]
      ensures reply == answer(r)
    {
      log := log + [r];
      reply := answer(r);
    }
  }

  // ---------------------------------------------------------------------
  // The response written to the caller

  /** The `details` member of an error envelope. */
  datatype Details =
    | RawText(text: string)     // the provider's body text, unparsed
    | Parsed(body: JsonBody)    // the provider's body, parsed
    | ExceptionText             // `String(err)` of a caught exception

  /** The JSON the handler writes; `result` of `Captured` is written under
      the member name `details`. */
  datatype Envelope =
    | Failure(error: string, details: Option<Details>)
    | Approval(approvalUrl: string, orderId: string)
    | Captured(message: string, result: JsonBody)

  const METHOD_NOT_ALLOWED := "Method not allowed"
  const TOKEN_FAILED := "Failed to get access token"

  datatype Written = Written(status: int, envelope: Envelope)

  /** The `res` object: what `res.status(s).json(e)` has written, if anything. */
  class Response {
    var written: Option<Written>

    constructor ()
      ensures written == None
    {
      written := None;
    }

    /** `res.status(status).json(envelope)`; a response is written at most once. */
    method Send(status: int, envelope: Envelope)
      requires written == None
      modifies this
      ensures written == Some(Written(status, envelope))
    {
      written := Some(Written(status, envelope));
    }
  }

  /** The observable result of one run of a handler: the response it wrote
      (None when the handler threw before writing one) and the requests it
      issued to the provider, in order. */
  datatype Outcome = Outcome(response: Option<Written>, requests: seq<OutboundRequest>)

  function Respond(status: int, envelope: Envelope, requests: seq<OutboundRequest>): Outcome {
    Outcome(Some(Written(status, envelope)), requests)
  }
}
