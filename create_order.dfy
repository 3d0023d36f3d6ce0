/** The create-order handler: a ladder of guards and two provider calls that
    ends in exactly one JSON response. Every exception raised after the method
    check is caught and answered with 500. */
module CreateOrder {
  import opened Exchange

  datatype Mode = Sandbox | Live

  const LIVE_BASE := "https://api-m.paypal.com"
  const SANDBOX_BASE := "https://api-m.sandbox.paypal.com"
  const TOKEN_PATH := "/v1/oauth2/token"
  const ORDERS_PATH := "/v2/checkout/orders"

  const MISSING_FIELDS := "Missing amount or currency in body"
  const MISSING_CREDENTIALS := "Missing PayPal credentials on server"
  const ORDER_FAILED := "Failed to create PayPal order"
  const NO_APPROVAL_LINK := "No approval link returned from PayPal"
  const SERVER_EXCEPTION := Failure("Server exception in create-order", Some(ExceptionText))

  const CONTEXT := ApplicationContext(
    "JuvalixPro",
    "https://juvalixpro-payments-backend.vercel.app/success.html",
    "https://juvalixpro-payments-backend.vercel.app/cancel.html")

  /** PAYPAL_MODE selects production only when it is exactly "live"; unset or
      any other value selects the sandbox. */
  function ModeOf(setting: Option<string>): (m: Mode)
    ensures m == Live <==> setting == Some("live")
  {
    if setting == Some("live") then Live else Sandbox
  }

  function BaseUrl(m: Mode): string {
    if m == Live then LIVE_BASE else SANDBOX_BASE
  }

  /** `req.body || {}`: an absent body reads as one without members. */
  function Fields(req: IncomingRequest): RequestBody {
    req.body.GetOr(EMPTY_BODY)
  }

  predicate HasOrderFields(req: IncomingRequest) {
    Truthy(Fields(req).amount) && Truthy(Fields(req).currency)
  }

  predicate HasCredentials(env: Env) {
    Truthy(env.clientId) && Truthy(env.clientSecret)
  }

  /** The token request, sent to the host the mode selects. */
  function TokenCall(env: Env): OutboundRequest {
    TokenRequest(BaseUrl(ModeOf(env.mode)) + TOKEN_PATH, env)
  }

  /** The order request: immediate capture of one purchase unit carrying the
      caller's currency and amount as given. */
  function OrderCall(baseUrl: string, accessToken: Option<string>, amount: string, currency: string): OutboundRequest {
    Post(baseUrl + ORDERS_PATH, Bearer(accessToken), JSON_TYPE,
         OrderBody("CAPTURE", [PurchaseUnit(currency, amount)], CONTEXT))
  }

  /** A token reply the handler goes on with: 2xx and JSON. Whether the body
      holds an `access_token` is not examined. */
  predicate Granted(reply: Reply) {
    reply.ok && reply.parsed.Some?
  }

  /** `orderData.links || []`. */
  function LinksOf(body: JsonBody): seq<Link> {
    body.links.GetOr([])
  }

  /** `links.find(x => x.rel === "approve")`: the first link whose relation
      is "approve", None when there is none. */
  function FindApprove(links: seq<Link>): (r: Option<Link>)
    ensures r.None? <==> forall i :: 0 <= i < |links| ==> links[i].rel != "approve"
    ensures r.Some? ==> exists k :: 0 <= k < |links| && links[k] == r.value && links[k].rel == "approve" &&
                                    forall j :: 0 <= j < k ==> links[j].rel != "approve"
  {
    if |links| == 0 then None
    else if links[0].rel == "approve" then Some(links[0])
    else
      var r := FindApprove(links[1..]);
      assert r.Some? ==> exists k :: 0 <= k < |links[1..]| && links[1..][k] == r.value && links[1..][k].rel == "approve" &&
                                      forall j :: 0 <= j < k ==> links[1..][j].rel != "approve";
      assert r.Some? ==> exists k :: 1 <= k < |links| && links[k] == r.value && links[k].rel == "approve" &&
                                      forall j :: 1 <= j < k ==> links[j].rel != "approve";
      r
  }

  /** The whole handler as the outcome it produces, given the request, the
      environment and the provider's scripted replies. */
  function Ladder(req: IncomingRequest, env: Env, answer: OutboundRequest -> Reply): (o: Outcome)
    // every path writes exactly one response, after at most two provider calls
    ensures o.response.Some? && |o.requests| <= 2
    // the guards, in order, each before any provider call
    ensures req.verb != "POST" ==> o == Respond(405, Failure(METHOD_NOT_ALLOWED, None), [])
    ensures req.verb == "POST" && !HasOrderFields(req) ==> o == Respond(400, Failure(MISSING_FIELDS, None), [])
    ensures req.verb == "POST" && HasOrderFields(req) && !HasCredentials(env) ==>
              o == Respond(500, Failure(MISSING_CREDENTIALS, None), [])
    ensures o.requests != [] <==> req.verb == "POST" && HasOrderFields(req) && HasCredentials(env)
    // the token call comes first, to the host the mode selects
    ensures o.requests != [] ==> o.requests[0] == TokenCall(env)
    ensures o.requests != [] && !answer(o.requests[0]).ok ==>
              |o.requests| == 1 &&
              o.response == Some(Written(500, Failure(TOKEN_FAILED, Some(RawText(answer(o.requests[0]).text)))))
    ensures o.requests != [] && answer(o.requests[0]).ok && answer(o.requests[0]).parsed.None? ==>
              |o.requests| == 1 && o.response == Some(Written(500, SERVER_EXCEPTION))
    // the order call is made exactly when the token call succeeded, to the same host
    ensures |o.requests| == 2 <==> o.requests != [] && Granted(answer(o.requests[0]))
    ensures |o.requests| == 2 ==>
              o.requests[1] == OrderCall(BaseUrl(ModeOf(env.mode)), answer(o.requests[0]).parsed.value.accessToken,
                                         Fields(req).amount.value, Fields(req).currency.value)
    ensures |o.requests| == 2 && !answer(o.requests[1]).ok ==>
              o.response == Some(Written(500, Failure(ORDER_FAILED, Some(RawText(answer(o.requests[1]).text)))))
    ensures |o.requests| == 2 && answer(o.requests[1]).ok && answer(o.requests[1]).parsed.None? ==>
              o.response == Some(Written(500, SERVER_EXCEPTION))
    ensures |o.requests| == 2 && Granted(answer(o.requests[1])) &&
            FindApprove(LinksOf(answer(o.requests[1]).parsed.value)).None? ==>
              o.response == Some(Written(500, Failure(NO_APPROVAL_LINK, None)))
    // success exactly when an approve link came back; its href and the order id are returned
    ensures o.response.value.status == 200 <==>
              |o.requests| == 2 && Granted(answer(o.requests[1])) &&
              FindApprove(LinksOf(answer(o.requests[1]).parsed.value)).Some?
    ensures o.response.value.status == 200 ==>
              var body := answer(o.requests[1]).parsed.value;
              o.response.value.envelope == Approval(FindApprove(LinksOf(body)).value.href, body.id)
  {
    if req.verb != "POST" then
      Respond(405, Failure(METHOD_NOT_ALLOWED, None), [])
    else if !HasOrderFields(req) then
      Respond(400, Failure(MISSING_FIELDS, None), [])
    else if !HasCredentials(env) then
      Respond(500, Failure(MISSING_CREDENTIALS, None), [])
    else
      var baseUrl := BaseUrl(ModeOf(env.mode));
      var tokenCall := TokenRequest(baseUrl + TOKEN_PATH, env);
      var tokenReply := answer(tokenCall);
      if !tokenReply.ok then
        Respond(500, Failure(TOKEN_FAILED, Some(RawText(tokenReply.text))), [tokenCall])
      else if tokenReply.parsed.None? then
        Respond(500, SERVER_EXCEPTION, [tokenCall])
      else
        var orderCall := OrderCall(baseUrl, tokenReply.parsed.value.accessToken,
                                   Fields(req).amount.value, Fields(req).currency.value);
        var orderReply := answer(orderCall);
        var calls := [tokenCall, orderCall];
        if !orderReply.ok then
          Respond(500, Failure(ORDER_FAILED, Some(RawText(orderReply.text))), calls)
        else if orderReply.parsed.None? then
          Respond(500, SERVER_EXCEPTION, calls)
        else
          match FindApprove(LinksOf(orderReply.parsed.value))
          case None => Respond(500, Failure(NO_APPROVAL_LINK, None), calls)
          case Some(link) => Respond(200, Approval(link.href, orderReply.parsed.value.id), calls)
  }

  /** The handler step by step: `fetch` goes through the provider, the single
      `res.status(..).json(..)` through the response object. */
  method Handler(req: IncomingRequest, env: Env, provider: Provider, res: Response)
    requires res.written == None
    modifies provider, res
    ensures provider.log == old(provider.log) + Ladder(req, env, provider.answer).requests
    ensures res.written == Ladder(req, env, provider.answer).response
  {
    if req.verb != "POST" {
      res.Send(405, Failure(METHOD_NOT_ALLOWED, None));
      return;
    }
    var fields := req.body.GetOr(EMPTY_BODY);
    if !Truthy(fields.amount) || !Truthy(fields.currency) {
      res.Send(400, Failure(MISSING_FIELDS, None));
      return;
    }
    var mode := ModeOf(env.mode);
    if !Truthy(env.clientId) || !Truthy(env.clientSecret) {
      res.Send(500, Failure(MISSING_CREDENTIALS, None));
      return;
    }
    var baseUrl := BaseUrl(mode);

    var tokenReply := provider.Fetch(TokenRequest(baseUrl + TOKEN_PATH, env));
    if !tokenReply.ok {
      res.Send(500, Failure(TOKEN_FAILED, Some(RawText(tokenReply.text))));
      return;
    }
    if tokenReply.parsed.None? {
      // JSON.parse throws; the catch answers
      res.Send(500, SERVER_EXCEPTION);
      return;
    }
    var accessToken := tokenReply.parsed.value.accessToken;

    var orderReply := provider.Fetch(OrderCall(baseUrl, accessToken, fields.amount.value, fields.currency.value));
    if !orderReply.ok {
      res.Send(500, Failure(ORDER_FAILED, Some(RawText(orderReply.text))));
      return;
    }
    if orderReply.parsed.None? {
      res.Send(500, SERVER_EXCEPTION);
      return;
    }
    var orderData := orderReply.parsed.value;
    var approveLink := FindApprove(LinksOf(orderData));
    if approveLink.None? {
      res.Send(500, Failure(NO_APPROVAL_LINK, None));
      return;
    }
    res.Send(200, Approval(approveLink.value.href, orderData.id));
  }

  /** The approve link returned is the first one: links before it are passed
      over, links after it do not matter. */
  lemma {:induction false} FindApproveFirst(before: seq<Link>, link: Link, after: seq<Link>)
    requires forall i :: 0 <= i < |before| ==> before[i].rel != "approve"
    requires link.rel == "approve"
    ensures FindApprove(before + [link] + after) == Some(link)
  {
    if before != [] {
      assert (before + [link] + after)[1..] == before[1..] + [link] + after;
      FindApproveFirst(before[1..], link, after);
    }
  }
}
