/** The handler as the step-by-step program it is: it writes headers and a
    status into a response object, builds the event in place, accumulates
    the destination's answer, and ends the response at most once. */
module Handler {
  import opened Json
  import ClientAddress
  import opened EventPayload
  import opened Relay

  /** The three cross-origin headers written before anything else. */
  function CorsHeaders(): (h: map<string, string>)
    ensures h.Keys == {"Access-Control-Allow-Origin", "Access-Control-Allow-Methods",
                       "Access-Control-Allow-Headers"}
  {
    map["Access-Control-Allow-Origin" := "*",
        "Access-Control-Allow-Methods" := "POST, OPTIONS",
        "Access-Control-Allow-Headers" := "Content-Type"]
  }

  /** The server response object: headers, status code and, once ended, the
      body that was sent. */
  class Response {
    var headers: map<string, string>
    var statusCode: int
    var body: Body
    var ended: bool

    /** A fresh response: no headers, the default status 200, not yet sent. */
    constructor ()
      ensures headers == map[] && statusCode == 200 && body == Empty && !ended
    {
      headers := map[];
      statusCode := 200;
      body := Empty;
      ended := false;
    }

    /** `res.setHeader(name, value)`; headers cannot change once sent. */
    method SetHeader(name: string, value: string)
      requires !ended
      modifies this
      ensures headers == old(headers)[name := value]
      ensures statusCode == old(statusCode) && body == old(body) && !ended
    {
      headers := headers[name := value];
    }

    /** `res.status(code)`. */
    method Status(code: int)
      requires !ended
      modifies this
      ensures statusCode == code
      ensures headers == old(headers) && body == old(body) && !ended
    {
      statusCode := code;
    }

    /** `res.end()`: sends the response with no body. */
    method End()
      requires !ended
      modifies this
      ensures ended && body == Empty
      ensures headers == old(headers) && statusCode == old(statusCode)
    {
      body := Empty;
      ended := true;
    }

    /** Models `res.json(value)`: sends the response with a JSON body. */
    method SendJson(value: Value)
      requires !ended
      modifies this
      ensures ended && body == JsonBody(value)
      ensures headers == old(headers) && statusCode == old(statusCode)
    {
      body := JsonBody(value);
      ended := true;
    }
  }

  /** Handles one request on a response that has not been sent. The reply is
      the one Relay.Respond describes, the cross-origin headers are always
      set, and the destination is sent at most one body: the one
      Relay.Outbound describes, and only when there is one. */
  method Handle(req: Request, env: Option<string>, nowMillis: int,
                transport: Transport, parse: string -> Option<Value>, res: Response)
    returns (sent: seq<Value>)
    requires !res.ended
    modifies res
    ensures res.ended
    ensures res.headers == old(res.headers) + CorsHeaders()
    ensures Reply(res.statusCode, res.body) == Respond(req, env, nowMillis, transport, parse)
    ensures sent == match Outbound(req, env, nowMillis)
                    case Some(payload) => [payload]
                    case None => []
  {
    res.SetHeader("Access-Control-Allow-Origin", "*");
    res.SetHeader("Access-Control-Allow-Methods", "POST, OPTIONS");
    res.SetHeader("Access-Control-Allow-Headers", "Content-Type");
    assert res.headers == old(res.headers) + CorsHeaders();

    if req.verb == "OPTIONS" {
      res.Status(200);
      res.End();
      return [];
    }

    if req.verb != "POST" {
      res.Status(405);
      res.SendJson(ErrorObject("Method not allowed"));
      return [];
    }

    if !TokenConfigured(env) {
      res.Status(500);
      res.SendJson(ErrorObject("Server configuration error"));
      return [];
    }

    sent := SendEvent(req, env.value, nowMillis, transport, parse, res);
  }

  /** The `try` block of the handler, entered with the credential in hand:
      builds the event, sends it, and maps the outcome (or the throw of a
      nullish body) onto the response. */
  method SendEvent(req: Request, token: string, nowMillis: int,
                   transport: Transport, parse: string -> Option<Value>, res: Response)
    returns (sent: seq<Value>)
    requires !res.ended && req.verb == "POST" && token != ""
    modifies res
    ensures res.ended && res.headers == old(res.headers)
    ensures Reply(res.statusCode, res.body) == Respond(req, Some(token), nowMillis, transport, parse)
    ensures sent == match Outbound(req, Some(token), nowMillis)
                    case Some(payload) => [payload]
                    case None => []
  {
    // Destructuring a nullish body throws.
    var inbound := Destructure(req.body);
    if inbound.None? {
      res.Status(500);
      res.SendJson(ErrorObject("Failed to send event"));
      return [];
    }
    var ev := inbound.value;

    var clientIp := ClientAddress.ClientIp(req.headers);
    var eventData := BaseEvent(ev, clientIp, UserAgent(req.headers), nowMillis);
    if Truthy(ev.customData) {
      eventData := eventData["custom_data" := ev.customData];
    }
    assert eventData == Event(ev, clientIp, UserAgent(req.headers), nowMillis);
    var payload := Payload(eventData, token);
    sent := [payload];

    match transport
    case Failed(_) =>
      res.Status(500);
      res.SendJson(ErrorObject("Failed to send event"));
    case Delivered(chunks) =>
      var data := ReadBody(chunks);
      var result := Decode(data, parse);
      res.Status(200);
      res.SendJson(Obj(map["success" := Bool(true), "result" := result]));
  }

  /** A client of Handle: an OPTIONS preflight on a fresh response is a 200
      with no body and the cross-origin headers, and sends nothing. */
  method AnswerPreflight(headers: map<string, string>, body: Value, env: Option<string>,
                   nowMillis: int, transport: Transport, parse: string -> Option<Value>)
    returns (status: int, sentBody: Body, cors: map<string, string>, sent: seq<Value>)
    ensures status == 200 && sentBody == Empty && cors == CorsHeaders() && sent == []
  {
    var res := new Response();
    sent := Handle(Request("OPTIONS", headers, body), env, nowMillis, transport, parse, res);
    status, sentBody, cors := res.statusCode, res.body, res.headers;
  }
}
