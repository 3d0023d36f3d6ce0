/** The capture-order handler: two guards, then a token call and a capture
    call, always against the sandbox host. It has no try/catch: a step that
    throws ends the handler without writing a response. */
module CaptureOrder {
  import opened Exchange

  const SANDBOX_HOST := "https://api-m.sandbox.paypal.com"
  const TOKEN_URL := SANDBOX_HOST + "/v1/oauth2/token"
  const ORDERS_URL := SANDBOX_HOST + "/v2/checkout/orders/"
  const CAPTURE_SUFFIX := "/capture"

  const MISSING_ORDER_ID := "Missing orderId"
  const CAPTURE_FAILED := "Failed to capture order"
  const CAPTURED := "Order captured successfully"

  /** `.../v2/checkout/orders/${orderId}/capture`. */
  function CaptureUrl(orderId: string): string {
    ORDERS_URL + orderId + CAPTURE_SUFFIX
  }

  /** The capture request: Bearer auth, no body and no idempotency header. */
  function CaptureCall(orderId: string, accessToken: Option<string>): OutboundRequest {
    Post(CaptureUrl(orderId), Bearer(accessToken), JSON_TYPE, NoPayload)
  }

  predicate OnSandboxHost(url: string) {
    |SANDBOX_HOST| <= |url| && url[..|SANDBOX_HOST|] == SANDBOX_HOST
  }

  /** The order id sits in the capture URL verbatim, between the orders
      prefix and the capture suffix. */
  lemma CaptureUrlVerbatim(orderId: string)
    ensures var url := CaptureUrl(orderId);
            |url| == |ORDERS_URL| + |orderId| + |CAPTURE_SUFFIX| &&
            url[..|ORDERS_URL|] == ORDERS_URL &&
            url[|ORDERS_URL|..|ORDERS_URL| + |orderId|] == orderId &&
            url[|ORDERS_URL| + |orderId|..] == CAPTURE_SUFFIX
  {
  }

  /** Different order ids are captured at different URLs. */
  lemma CaptureUrlInjective(a: string, b: string)
    requires CaptureUrl(a) == CaptureUrl(b)
    ensures a == b
  {
    CaptureUrlVerbatim(a);
    CaptureUrlVerbatim(b);
  }

  /** A reply whose body the handler manages to read as JSON. */
  predicate Readable(reply: Reply) {
    reply.parsed.Some?
  }

  /** The whole handler as the outcome it produces, given the request, the
      environment and the provider's scripted replies. */
  function Ladder(req: IncomingRequest, env: Env, answer: OutboundRequest -> Reply): (o: Outcome)
    // at most two calls, all to the sandbox host whatever PAYPAL_MODE says
    ensures |o.requests| <= 2
    ensures forall i :: 0 <= i < |o.requests| ==> OnSandboxHost(o.requests[i].url)
    // the guards, in order, each before any provider call
    ensures req.verb != "POST" ==> o == Respond(405, Failure(METHOD_NOT_ALLOWED, None), [])
    ensures req.verb == "POST" && req.body.None? ==> o == Outcome(None, [])
    ensures req.verb == "POST" && req.body.Some? && !Truthy(req.body.value.orderId) ==>
              o == Respond(400, Failure(MISSING_ORDER_ID, None), [])
    // no credential guard: the token call is made whenever the guards pass
    ensures o.requests != [] <==> req.verb == "POST" && req.body.Some? && Truthy(req.body.value.orderId)
    ensures o.requests != [] ==> o.requests[0] == TokenRequest(TOKEN_URL, env)
    ensures o.requests != [] && !answer(o.requests[0]).ok ==>
              |o.requests| == 1 &&
              o.response == Some(Written(500, Failure(TOKEN_FAILED, Some(RawText(answer(o.requests[0]).text)))))
    // the capture call follows the token call exactly when the token body was read
    ensures |o.requests| == 2 <==> o.requests != [] && answer(o.requests[0]).ok && Readable(answer(o.requests[0]))
    ensures |o.requests| == 2 ==>
              o.requests[1] == CaptureCall(req.body.value.orderId.value, answer(o.requests[0]).parsed.value.accessToken)
    // the capture body is passed on parsed, as failure or as success
    ensures |o.requests| == 2 && Readable(answer(o.requests[1])) ==>
              var reply := answer(o.requests[1]);
              o.response == Some(if reply.ok then Written(200, Captured(CAPTURED, reply.parsed.value))
                                 else Written(500, Failure(CAPTURE_FAILED, Some(Parsed(reply.parsed.value)))))
    // nothing is written exactly when a step throws
    ensures o.response.None? <==>
              (req.verb == "POST" && req.body.None?) ||
              (|o.requests| == 1 && answer(o.requests[0]).ok) ||
              (|o.requests| == 2 && !Readable(answer(o.requests[1])))
  {
    if req.verb != "POST" then
      Respond(405, Failure(METHOD_NOT_ALLOWED, None), [])
    else if req.body.None? then
      Outcome(None, [])
    else if !Truthy(req.body.value.orderId) then
      Respond(400, Failure(MISSING_ORDER_ID, None), [])
    else
      var tokenCall := TokenRequest(TOKEN_URL, env);
      var tokenReply := answer(tokenCall);
      if !tokenReply.ok then
        Respond(500, Failure(TOKEN_FAILED, Some(RawText(tokenReply.text))), [tokenCall])
      else if tokenReply.parsed.None? then
        Outcome(None, [tokenCall])
      else
        var captureCall := CaptureCall(req.body.value.orderId.value, tokenReply.parsed.value.accessToken);
        var captureReply := answer(captureCall);
        var calls := [tokenCall, captureCall];
        if captureReply.parsed.None? then
          Outcome(None, calls)
        else if !captureReply.ok then
          Respond(500, Failure(CAPTURE_FAILED, Some(Parsed(captureReply.parsed.value))), calls)
        else
          Respond(200, Captured(CAPTURED, captureReply.parsed.value), calls)
  }

  /** The handler step by step; `return` without `Send` is a throw. */
  method Handler(req: IncomingRequest, env: Env, provider: Provider, res: Response)
    requires res.written == None
    modifies provider, res
    ensures provider.log == old(provider.log) + Ladder(req, env, provider.answer).requests
    ensures res.written == Ladder(req, env, provider.answer).response
  {
    if req.verb != "POST" {
      res.Send(405, Failure(METHOD_NOT_ALLOWED, None));
      return;
    }
    if req.body.None? {
      // destructuring an undefined body throws
      return;
    }
    var orderId := req.body.value.orderId;
    if !Truthy(orderId) {
      res.Send(400, Failure(MISSING_ORDER_ID, None));
      return;
    }

    var tokenReply := provider.Fetch(TokenRequest(TOKEN_URL, env));
    if !tokenReply.ok {
      res.Send(500, Failure(TOKEN_FAILED, Some(RawText(tokenReply.text))));
      return;
    }
    if tokenReply.parsed.None? {
      // tokenResponse.json() rejects
      return;
    }
    var accessToken := tokenReply.parsed.value.accessToken;

    var captureReply := provider.Fetch(CaptureCall(orderId.value, accessToken));
    if captureReply.parsed.None? {
      // captureResponse.json() rejects
      return;
    }
    var captureData := captureReply.parsed.value;
    if !captureReply.ok {
      res.Send(500, Failure(CAPTURE_FAILED, Some(Parsed(captureData))));
      return;
    }
    res.Send(200, Captured(CAPTURED, captureData));
  }

  /** PAYPAL_MODE plays no part in a capture. */
  lemma IgnoresMode(req: IncomingRequest, env: Env, answer: OutboundRequest -> Reply, mode: Option<string>)
    ensures Ladder(req, env, answer) == Ladder(req, env.(mode := mode), answer)
  {
  }
}
