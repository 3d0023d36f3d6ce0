/** How the two handlers relate, and worked examples of single runs. */
module Scenarios {
  import opened Exchange
  import CreateOrder
  import CaptureOrder

  /** Outside live mode both handlers ask for a token with the same request;
      only create-order follows PAYPAL_MODE. */
  lemma TokenRequestsAgree(env: Env)
    ensures env.mode != Some("live") ==>
              CreateOrder.TokenCall(env) == TokenRequest(CaptureOrder.TOKEN_URL, env)
    ensures env.mode == Some("live") ==>
              CreateOrder.TokenCall(env) != TokenRequest(CaptureOrder.TOKEN_URL, env)
  {
  }

  /** A method other than POST gets the same 405 from both handlers, before
      anything else is looked at. */
  lemma MethodGuardAgree(req: IncomingRequest, env: Env, answer: OutboundRequest -> Reply)
    requires req.verb != "POST"
    ensures CreateOrder.Ladder(req, env, answer) == CaptureOrder.Ladder(req, env, answer)
    ensures CreateOrder.Ladder(req, env, answer) == Respond(405, Failure(METHOD_NOT_ALLOWED, None), [])
  {
  }

  const APPROVE_URL := "https://provider/approve?token=O-123"

  /** A sandbox provider that grants a token and creates order O-123. */
  function OrderProvider(r: OutboundRequest): Reply {
    if r.url == CreateOrder.SANDBOX_BASE + CreateOrder.TOKEN_PATH then
      Reply(true, "{token}", Some(JsonBody(Some("A21"), "", None)))
    else
      Reply(true, "{order}", Some(JsonBody(None, "O-123",
        Some([Link("self", "https://provider/orders/O-123"), Link("approve", APPROVE_URL)]))))
  }

  /** amount "24.00", currency "usd", no PAYPAL_MODE: the currency goes out
      as written, and the answer holds the approval URL and the order id and
      no mode. */
  lemma LowerCaseCurrencyScenario()
    ensures var req := IncomingRequest("POST", Some(RequestBody(Some("24.00"), Some("usd"), None)));
            var env := Env(Some("id"), Some("secret"), None);
            var o := CreateOrder.Ladder(req, env, OrderProvider);
            |o.requests| == 2 &&
            o.requests[1].payload.purchaseUnits == [PurchaseUnit("usd", "24.00")] &&
            o.requests[1].auth == Bearer(Some("A21")) &&
            o.response == Some(Written(200, Approval(APPROVE_URL, "O-123")))
  {
    var links := [Link("self", "https://provider/orders/O-123"), Link("approve", APPROVE_URL)];
    CreateOrder.FindApproveFirst([links[0]], links[1], []);
    assert [links[0]] + [links[1]] + [] == links;
  }

  /** A provider that grants a token and refuses the capture with 422. */
  function RefusingProvider(r: OutboundRequest): Reply {
    if r.url == CaptureOrder.TOKEN_URL then
      Reply(true, "{token}", Some(JsonBody(Some("A21"), "", None)))
    else
      Reply(false, "{unprocessable}", Some(JsonBody(None, "O-123", None)))
  }

  /** Capturing O-123 against a refusing provider answers 500 with the
      parsed refusal, after exactly the token call and the capture call. */
  lemma RefusedCaptureScenario()
    ensures var req := IncomingRequest("POST", Some(RequestBody(None, None, Some("O-123"))));
            var o := CaptureOrder.Ladder(req, Env(None, None, Some("live")), RefusingProvider);
            o.requests == [TokenRequest(CaptureOrder.TOKEN_URL, Env(None, None, Some("live"))),
                           CaptureOrder.CaptureCall("O-123", Some("A21"))] &&
            o.response == Some(Written(500, Failure(CaptureOrder.CAPTURE_FAILED,
                                                    Some(Parsed(JsonBody(None, "O-123", None))))))
  {
  }
}
