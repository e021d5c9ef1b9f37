# Conversions API relay: a verified model

The repository's server side is one serverless HTTP handler, `api/meta-capi.js`.
It accepts an analytics event from a browser. It adds the client's IP address and
user agent, forwards the event to Meta's Conversions API in a single HTTPS POST,
and returns that API's answer to the caller. This project models the handler's
deterministic logic in Dafny and proves what it promises:

- **Dispatch.** An `OPTIONS` preflight gets 200 with an empty body. Any other
  method except `POST` gets 405. A `POST` without a truthy access token gets 500
  with a configuration error, and no payload is built.
- **Client address.** The first comma-separated entry of `x-forwarded-for`,
  trimmed with JavaScript's whitespace set. Failing that, `x-real-ip` verbatim.
  Failing that, `"unknown"`. Headers count only when non-empty, as JavaScript
  truthiness decides.
- **Event assembly.** The caller's fields are destructured from the body.
  `event_time` falls back to the clock's Unix second. `action_source` is fixed to
  `"website"`. The derived client fields are merged under the caller's
  `user_data`, so caller keys win. This includes JavaScript's spread of strings
  and arrays into index keys. `custom_data` is present exactly when the caller's
  value is truthy. The event is wrapped as `{data: [event], access_token}`.
- **Response mapping.** The answer text is accumulated chunk by chunk. If the
  text parses as JSON, the result is the parsed value; otherwise it is
  `{raw: text}`. A delivered answer always gives 200 `{success: true, result}`.
  A transport failure, or a body that cannot be destructured, gives the generic
  500 `{error: "Failed to send event"}`, which never carries the cause.

Modules:

- `json.dfy` (`Json`): JavaScript values, truthiness, and object spread, including
  the decimal index keys of arrays and strings.
- `client_ip.dfy` (`ClientAddress`): `split(',')[0]`, `trim()`, and the address
  fallback chain.
- `event_payload.dfy` (`EventPayload`): destructuring, the event literal, the
  `custom_data` step, and the outbound body.
- `relay.dfy` (`Relay`): the whole handler as functions of its inputs
  (`Dispatch`, `Outbound`, `Respond`), plus the loop that reads the answer
  stream.
- `handler.dfy` (`Handler`): the handler as the imperative program it is. A
  `Response` class has the fields the handler writes. `Handle` and `SendEvent`
  write them step by step and are proved to match `Relay.Respond` and
  `Relay.Outbound`.

Inputs the handler reads from its environment are parameters:

- the access token (`process.env.META_ACCESS_TOKEN`), as `Option<string>`;
- the clock (`Date.now()`), as an integer of milliseconds;
- the outcome of the HTTPS call: the delivered chunks, or a failure with a cause;
- `JSON.parse`, as a function `string -> Option<Value>` where `None` means it threw.

The handler tests truthiness (api/meta-capi.js:22, 33, 35), so an empty token or
an empty header counts as missing.

## Model

| member | source | states |
|---|---|---|
| `Json.Truthy` | api/meta-capi.js:40 | `undefined`, `null`, `false`, `0` and `""` are falsy; every other value, `[]` and `{}` included, is truthy (the tests of `event_time ||` and `if (custom_data)`, lines 40 and 51) |
| `Json.Spread` | api/meta-capi.js:43-47 | `...user_data` copies an object's own properties, an array's elements or a string's characters under their decimal index keys, and nothing for other values |
| `Json.Indexed` | api/meta-capi.js:46 | element `i` of a spread sequence is stored under `DecimalString(i)`, and every key is a canonical index below the length |
| `Json.ParseDecimalString` | api/meta-capi.js:46 | reading an index key back gives the index, so distinct elements never collide |
| `ClientAddress.FirstSegment` | api/meta-capi.js:34 | `split(',')[0]` is the prefix before the first comma (the whole string if none) and holds no comma |
| `ClientAddress.Trim` | api/meta-capi.js:34 | `trim()` removes only the JavaScript whitespace that opens and closes the string; the result is a slice of the input that neither starts nor ends with whitespace |
| `ClientAddress.TrimUnpadded` | api/meta-capi.js:34 | trimming a string with no whitespace at its ends leaves it unchanged (IPv6 addresses pass verbatim) |
| `ClientAddress.TrimBlank` | api/meta-capi.js:34 | an all-whitespace string trims to "" |
| `ClientAddress.TrimIdempotent` | api/meta-capi.js:34 | trimming twice equals trimming once |
| `ClientAddress.FirstSegmentBeforeComma` | api/meta-capi.js:34 | the first segment of `a + "," + b` is `a` when `a` holds no comma |
| `ClientAddress.HasValue` | api/meta-capi.js:33-35 | a header passes the handler's test iff it is present and its string value is truthy, i.e. non-empty |
| `ClientAddress.ClientIp` | api/meta-capi.js:32-35 | a non-empty forwarded header gives its trimmed first entry (no comma, no edge whitespace); otherwise a non-empty real-IP header verbatim; otherwise "unknown" |
| `ClientAddress.FirstEntryOfChain` | api/meta-capi.js:32-35 | a chain whose first entry has no comma and no edge whitespace yields that entry exactly, whatever follows it |
| `ClientAddress.ForwardedIpv6FirstEntry` | api/meta-capi.js:30-34 | "2001:db8::1, 10.0.0.1" yields "2001:db8::1" |
| `ClientAddress.BlankFirstEntry` | api/meta-capi.js:33-35 | a non-empty forwarded header whose first entry is blank (empty or whitespace only, with or without a comma after it) gives "", not the real-IP fallback |
| `EventPayload.Destructure` | api/meta-capi.js:28 | a nullish body throws; an object body gives its five fields (`undefined` when missing); any other body gives five `undefined`s |
| `EventPayload.UnixSeconds` | api/meta-capi.js:40 | `Math.floor(now / 1000)` is the second containing the millisecond clock reading |
| `EventPayload.UserAgent` | api/meta-capi.js:45 | the user-agent header verbatim when present, `undefined` otherwise |
| `EventPayload.UserData` | api/meta-capi.js:43-47 | the merged `user_data` has the two derived keys plus the caller's keys; every caller key keeps the caller's value; a derived field survives only when the caller did not send that key |
| `EventPayload.CallerUserDataWins` | api/meta-capi.js:43-47 | for an object `user_data`, every caller property arrives unchanged, and each derived field is kept exactly when the caller did not replace it with a different value |
| `EventPayload.NoCallerUserData` | api/meta-capi.js:43-47 | when `user_data` spreads into nothing, `user_data` holds just the two derived fields |
| `EventPayload.EventTime` | api/meta-capi.js:40 | a truthy caller time is kept as given; otherwise the clock's whole Unix second is used |
| `EventPayload.ZeroTimeIsDefaulted` | api/meta-capi.js:40 | a caller time of 0 is replaced by the clock, just like an absent one |
| `EventPayload.BaseEvent` | api/meta-capi.js:38-48 | the event literal has exactly five keys: name and URL as given, defaulted time, `action_source` "website", and the merged `user_data` |
| `EventPayload.Event` | api/meta-capi.js:50-53 | `custom_data` is a key iff the caller's value is truthy, and then equals it exactly; no other key is added or changed |
| `EventPayload.Payload` | api/meta-capi.js:55-58 | the outbound body has exactly `data`, a list of one event, and `access_token`, equal to the token |
| `Relay.TokenConfigured` | api/meta-capi.js:20-22 | the credential passes the check iff the environment variable is set and its string value is truthy, i.e. non-empty |
| `Relay.Dispatch` | api/meta-capi.js:12-25 | preflight iff `OPTIONS`; 405 iff neither `OPTIONS` nor `POST`; configuration error iff `POST` with a falsy token; otherwise proceed with the configured token |
| `Relay.ReadBody` | api/meta-capi.js:72-73 | the loop `data += chunk` yields the concatenation of all chunks, in order, with the chunks' total length |
| `Relay.ConcatAppend` | api/meta-capi.js:73 | accumulating two runs of chunks one after the other equals joining their texts |
| `Relay.Decode` | api/meta-capi.js:75-79 | the parsed value when `JSON.parse` succeeds, else `{raw: text}` |
| `Relay.RelayReply` | api/meta-capi.js:83-93 | a transport failure gives the generic 500; a delivered answer gives 200 with exactly `success: true` and `result` = the decoded text |
| `Relay.Outbound` | api/meta-capi.js:20-58 | a payload is built iff the method is `POST`, the token is truthy and the body is not nullish; it is then the one-event body built from the request |
| `Relay.Respond` | api/meta-capi.js:12-93 | OPTIONS gives 200 with no body; other non-POST methods give 405; a POST with no token gives 500 config error; a nullish body gives the generic 500; otherwise the relay reply; the status is always 200, 405 or 500 |
| `Relay.EarlyReplyIgnoresEverythingElse` | api/meta-capi.js:12-18 | for any method but POST, the reply depends on the method alone, and nothing is sent |
| `Relay.MissingTokenIgnoresRequest` | api/meta-capi.js:20-25 | without a token, every POST gets the same reply whatever its body and headers, and no payload is built |
| `Relay.FailureHidesCause` | api/meta-capi.js:90-93 | two failures with different causes give identical replies, `{error: "Failed to send event"}` |
| `Relay.UnparsableAnswerIsRaw` | api/meta-capi.js:74-79 | non-JSON answer text still gives 200 `{success: true, result: {raw: text}}` |
| `Relay.ChunkingIrrelevant` | api/meta-capi.js:72-79 | the reply depends only on the accumulated text, not on how it was split into chunks |
| `Relay.PurchaseFromIpv6Client` | api/meta-capi.js:28-58 | a Purchase event from a client behind "2001:db8::1, 10.0.0.1" with no time: the payload carries the IPv6 address, the clock's second, "website", the token, and no `custom_data` |
| `Handler.CorsHeaders` | api/meta-capi.js:8-10 | the three cross-origin headers the handler writes |
| `Handler.Response.constructor` | api/meta-capi.js:6 | a fresh response has no headers, status 200, and is not yet sent |
| `Handler.Response.SetHeader` | api/meta-capi.js:8-10 | sets one header and changes nothing else |
| `Handler.Response.Status` | api/meta-capi.js:13 | sets the status code and changes nothing else |
| `Handler.Response.End` | api/meta-capi.js:13 | sends the response with no body |
| `Handler.Response.SendJson` | api/meta-capi.js:17 | sends the response with a JSON body |
| `Handler.Handle` | api/meta-capi.js:6-94 | always adds the three cross-origin headers, ends the response with the status and body `Relay.Respond` gives, and sends at most one body, the one `Relay.Outbound` gives |
| `Handler.SendEvent` | api/meta-capi.js:27-93 | the `try` block builds the event in place, adding `custom_data` only when truthy, sends one payload, and answers as `Relay.Respond` describes |
| `Handler.AnswerPreflight` | api/meta-capi.js:12-14 | on a fresh response, a preflight ends with 200, no body, exactly the cross-origin headers, and nothing sent |

## Left out

- The HTTPS request, `request.write`/`end`, the stream events and the Promise
  around them are network I/O. Only their outcome is modelled: the delivered
  chunks, or a failure. The destination's own status code is ignored, as it is in
  the code.
- Relay.Transport, Relay.Respond: a third outcome of the source is not modelled,
  the one where no reply is ever sent. The outbound call has no timeout, and an
  `'error'` listener is registered only on the request, not on the response
  stream (api/meta-capi.js:71-83). So a destination that stalls, or that breaks
  the stream after answering, never reaches the `catch`, and the inbound
  response is never ended. The model covers only calls that settle.
- Relay.ChunkingIrrelevant: chunks are modelled as already-decoded text. In the
  source each chunk is a Buffer, since no encoding is set, and `data += chunk`
  decodes each one as UTF-8 on its own (api/meta-capi.js:73). A multi-byte
  character split across two chunks therefore becomes U+FFFD replacement
  characters, which changes the text, the parse outcome and the `raw` value.
  That decoding is not modelled, so the lemma's claim holds for the source only
  when every chunk boundary falls between characters.
- The request's destination is not modelled. That covers the fixed host, port
  and path (`graph.facebook.com`, `/v18.0/<pixel id>/events`) and the
  `Content-Type`/`Content-Length` request headers.
- How `JSON.stringify` and `JSON.parse` work internally, and `Buffer.byteLength`,
  are left out. Parsing is a parameter. The payload is modelled as the value
  being serialized. The model does not capture that serialization drops
  properties whose value is `undefined`.
- Property order is not modelled, because objects are maps. The source puts the
  derived `user_data` fields first; in the model they are simply overridden.
- `console.error` logging is left out because it has no observable effect on
  the reply.
- The `Content-Type` header that `res.json` sets on the inbound response is not
  part of this model.
- Numbers are reals. `NaN`, which is falsy, cannot occur in parsed JSON and is
  not represented.
- Strings are sequences of Unicode scalar values, not UTF-16 code units. So
  spreading a string with characters outside the Basic Multilingual Plane gives
  one key per character, not one key per surrogate.
- Header values are single strings. The server joins repeated `x-forwarded-for`
  headers into one string before the handler sees it.
- Exceptions other than destructuring a nullish body and a transport failure
  are not represented, because the modelled operations cannot throw on JSON
  values. An example is a throwing `JSON.stringify`.
