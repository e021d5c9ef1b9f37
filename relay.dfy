/** The relay handler as a function of everything it depends on: the
    inbound request, the configured credential, the clock, what the
    destination did with the one request it was sent, and the JSON parser.
    Handler.Handle is proved to follow this description step by step. */
module Relay {
  import opened Json
  import ClientAddress
  import opened EventPayload

  /** An inbound request: its method, its headers by lower-case name, and
      its parsed body (`undefined` when there is none). */
  datatype Request = Request(verb: string, headers: map<string, string>, body: Value)

  /** What the response carries: nothing (`res.end()`) or a JSON value
      (`res.json(v)`). */
  datatype Body = Empty | JsonBody(value: Value)

  datatype Reply = Reply(status: int, body: Body)

  /** The outcome of the single outbound HTTPS call, when it settles: the
      response body as the text chunks it arrived in, or a transport error
      with its cause. A call that never settles is not represented. */
  datatype Transport = Delivered(chunks: seq<string>) | Failed(cause: string)

  /** How a request leaves the method and credential checks. */
  datatype Gate = Preflight | MethodNotAllowed | MissingToken | Proceed(token: string)

  /** `process.env.META_ACCESS_TOKEN` is set and non-empty (truthy). */
  predicate TokenConfigured(env: Option<string>): (configured: bool)
    ensures configured <==> env.Some? && Truthy(Str(env.value))
  {
    env.Some? && env.value != ""
  }

  /** The checks before the `try`: preflight first, then the method, then
      the credential. */
  function Dispatch(verb: string, env: Option<string>): (g: Gate)
    ensures g == Preflight <==> verb == "OPTIONS"
    ensures g == MethodNotAllowed <==> verb != "OPTIONS" && verb != "POST"
    ensures g == MissingToken <==> verb == "POST" && !TokenConfigured(env)
    ensures g.Proceed? <==> verb == "POST" && TokenConfigured(env)
    ensures g.Proceed? ==> env == Some(g.token)
  {
    if verb == "OPTIONS" then Preflight
    else if verb != "POST" then MethodNotAllowed
    else if !TokenConfigured(env) then MissingToken
    else Proceed(env.value)
  }

  /** The text `data += chunk` accumulates from the response stream. */
  function Concat(chunks: seq<string>): string {
    if chunks == [] then "" else Concat(chunks[..|chunks| - 1]) + chunks[|chunks| - 1]
  }

  lemma {:induction false} ConcatAppend(a: seq<string>, b: seq<string>)
    ensures Concat(a + b) == Concat(a) + Concat(b)
    decreases |b|
  {
    if b == [] {
      assert a + b == a;
    } else {
      var n := |b| - 1;
      assert (a + b)[..|a + b| - 1] == a + b[..n];
      ConcatAppend(a, b[..n]);
    }
  }

  /** Accumulates the response stream chunk by chunk. */
  method ReadBody(chunks: seq<string>) returns (data: string)
    ensures data == Concat(chunks)
    ensures |data| == TotalLength(chunks)
  {
    data := "";
    var i := 0;
    while i < |chunks|
      invariant 0 <= i <= |chunks|
      invariant data == Concat(chunks[..i])
      invariant |data| == TotalLength(chunks[..i])
    {
      assert chunks[..i + 1][..i] == chunks[..i];
      data := data + chunks[i];
      i := i + 1;
    }
    assert chunks[..i] == chunks;
  }

  /** The number of characters in all chunks together. */
  function TotalLength(chunks: seq<string>): nat {
    if chunks == [] then 0 else TotalLength(chunks[..|chunks| - 1]) + |chunks[|chunks| - 1]|
  }

  /** `JSON.parse(data)`, or `{ raw: data }` when parsing throws. */
  function Decode(text: string, parse: string -> Option<Value>): (v: Value)
    ensures parse(text).Some? ==> v == parse(text).value
    ensures parse(text).None? ==> v == Obj(map["raw" := Str(text)])
  {
    match parse(text)
    case Some(parsed) => parsed
    case None => Obj(map["raw" := Str(text)])
  }

  /** The generic reply for any failure caught by the `try`. */
  function FailureReply(): Reply {
    Reply(500, JsonBody(ErrorObject("Failed to send event")))
  }

  /** The reply once the outbound call has settled: a delivered response is
      always a 200 with `success: true` and the decoded result; a transport
      error is the generic 500 that says nothing of its cause. */
  function RelayReply(transport: Transport, parse: string -> Option<Value>): (r: Reply)
    ensures transport.Failed? ==> r == FailureReply()
    ensures transport.Delivered? ==>
              r.status == 200 && r.body.JsonBody? && r.body.value.Obj?
              && r.body.value.fields.Keys == {"success", "result"}
              && r.body.value.fields["success"] == Bool(true)
              && r.body.value.fields["result"] == Decode(Concat(transport.chunks), parse)
  {
    match transport
    case Failed(_) => FailureReply()
    case Delivered(chunks) =>
      Reply(200, JsonBody(Obj(map["success" := Bool(true),
                              "result" := Decode(Concat(chunks), parse)])))
  }

  /** The one body sent to the destination, if the handler gets that far: a
      POST with a configured credential and a body it can destructure. */
  function Outbound(req: Request, env: Option<string>, nowMillis: int): (o: Option<Value>)
    ensures o.Some? <==> req.verb == "POST" && TokenConfigured(env) && !Nullish(req.body)
    ensures o.Some? ==>
              var ev := Destructure(req.body).value;
              o.value == Payload(Event(ev, ClientAddress.ClientIp(req.headers),
                                       UserAgent(req.headers), nowMillis), env.value)
  {
    match Dispatch(req.verb, env)
    case Proceed(token) =>
      (match Destructure(req.body)
       case None => None
       case Some(ev) =>
         Some(Payload(Event(ev, ClientAddress.ClientIp(req.headers),
                            UserAgent(req.headers), nowMillis), token)))
    case _ => None
  }

  /** The status and body the handler answers with. */
  function Respond(req: Request, env: Option<string>, nowMillis: int,
                   transport: Transport, parse: string -> Option<Value>): (r: Reply)
    ensures req.verb == "OPTIONS" ==> r == Reply(200, Empty)
    ensures req.verb != "OPTIONS" && req.verb != "POST" ==>
              r == Reply(405, JsonBody(ErrorObject("Method not allowed")))
    ensures req.verb == "POST" && !TokenConfigured(env) ==>
              r == Reply(500, JsonBody(ErrorObject("Server configuration error")))
    ensures req.verb == "POST" && TokenConfigured(env) && Nullish(req.body) ==>
              r == FailureReply()
    ensures Outbound(req, env, nowMillis).Some? ==> r == RelayReply(transport, parse)
    ensures r.status in {200, 405, 500}
  {
    match Dispatch(req.verb, env)
    case Preflight => Reply(200, Empty)
    case MethodNotAllowed => Reply(405, JsonBody(ErrorObject("Method not allowed")))
    case MissingToken => Reply(500, JsonBody(ErrorObject("Server configuration error")))
    case Proceed(_) =>
      if Nullish(req.body) then FailureReply() else RelayReply(transport, parse)
  }

  // ---------------------------------------------------------------------
  // Properties

  /** The preflight and method checks look at the method alone: neither the
      body, the headers, the credential, the clock nor the destination can
      change their answer, and nothing is sent. */
  lemma EarlyReplyIgnoresEverythingElse(
    req1: Request, env1: Option<string>, now1: int, t1: Transport, p1: string -> Option<Value>,
    req2: Request, env2: Option<string>, now2: int, t2: Transport, p2: string -> Option<Value>)
    requires req1.verb == req2.verb && req1.verb != "POST"
    ensures Respond(req1, env1, now1, t1, p1) == Respond(req2, env2, now2, t2, p2)
    ensures Outbound(req1, env1, now1) == None
  {
  }

  /** Without a credential a POST is refused whatever it carries, and no
      payload is built. */
  lemma MissingTokenIgnoresRequest(
    req1: Request, now1: int, t1: Transport, p1: string -> Option<Value>,
    req2: Request, now2: int, t2: Transport, p2: string -> Option<Value>,
    env: Option<string>)
    requires req1.verb == "POST" && req2.verb == "POST" && !TokenConfigured(env)
    ensures Respond(req1, env, now1, t1, p1) == Respond(req2, env, now2, t2, p2)
    ensures Outbound(req1, env, now1) == None
  {
  }

  /** A failed relay never reveals its cause: any two failures give the same
      reply. */
  lemma FailureHidesCause(c1: string, c2: string, p1: string -> Option<Value>, p2: string -> Option<Value>)
    ensures RelayReply(Failed(c1), p1) == RelayReply(Failed(c2), p2)
    ensures RelayReply(Failed(c1), p1).body == JsonBody(Obj(map["error" := Str("Failed to send event")]))
  {
  }

  /** A destination answer that is not JSON is still a success, carrying the
      text the stream delivered under `raw`. */
  lemma UnparsableAnswerIsRaw(chunks: seq<string>, parse: string -> Option<Value>)
    requires parse(Concat(chunks)).None?
    ensures RelayReply(Delivered(chunks), parse)
         == Reply(200, JsonBody(Obj(map["success" := Bool(true),
                                    "result" := Obj(map["raw" := Str(Concat(chunks))])])))
  {
  }

  /** The result text does not depend on how the stream was split into
      chunks. */
  lemma ChunkingIrrelevant(a: seq<string>, b: seq<string>, parse: string -> Option<Value>)
    requires Concat(a) == Concat(b)
    ensures RelayReply(Delivered(a), parse) == RelayReply(Delivered(b), parse)
  {
  }

  /** A POST of `{ event_name: "Purchase" }` with no time and no custom data,
      forwarded through the chain "2001:db8::1, 10.0.0.1": the one event sent
      carries the IPv6 client address unaltered, the clock's second, the
      fixed action source, and no `custom_data` key. */
  lemma PurchaseFromIpv6Client(token: string, nowMillis: int)
    requires token != ""
    ensures var req := Request("POST", map["x-forwarded-for" := "2001:db8::1, 10.0.0.1"],
                               Obj(map["event_name" := Str("Purchase")]));
            var o := Outbound(req, Some(token), nowMillis);
            && o.Some?
            && var event := o.value.fields["data"].items[0];
            && event.Obj?
            && event.fields["event_name"] == Str("Purchase")
            && event.fields["event_time"] == Num((nowMillis / 1000) as real)
            && event.fields["action_source"] == Str("website")
            && "custom_data" !in event.fields
            && event.fields["user_data"].Obj?
            && event.fields["user_data"].fields["client_ip_address"] == Str("2001:db8::1")
            && o.value.fields["access_token"] == Str(token)
  {
    var headers := map["x-forwarded-for" := "2001:db8::1, 10.0.0.1"];
    var body := Obj(map["event_name" := Str("Purchase")]);
    var req := Request("POST", headers, body);
    ClientAddress.ForwardedIpv6FirstEntry();
    var ev := InboundEvent(Str("Purchase"), Undefined, Undefined, Undefined, Undefined);
    assert Destructure(body) == Some(ev);
    assert !Truthy(Undefined);
    var ua := UserAgent(headers);
    NoCallerUserData("2001:db8::1", ua, Undefined);
    var event := Event(ev, "2001:db8::1", ua, nowMillis);
    assert Outbound(req, Some(token), nowMillis) == Some(Payload(event, token));
    assert "custom_data" !in event;
    assert event["event_time"] == EventTime(Undefined, nowMillis);
  }
}
