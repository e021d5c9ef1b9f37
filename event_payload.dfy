/** Assembly of the event sent to the Conversions API: the fields the caller
    supplied, the server's defaults, and the derived client context merged
    under the caller's `user_data`. */
module EventPayload {
  import opened Json

  /** The five fields the handler destructures from the request body. */
  datatype InboundEvent = InboundEvent(
    eventName: Value,
    eventTime: Value,
    eventSourceUrl: Value,
    userData: Value,
    customData: Value)

  /** `const { event_name, ... } = req.body`: a nullish body throws (None);
      a non-object body has none of the five properties, so each reads as
      `undefined`. None of the five names is a property that arrays, strings,
      numbers or booleans carry. */
  function Destructure(body: Value): (r: Option<InboundEvent>)
    ensures r.None? <==> Nullish(body)
    ensures body.Obj? ==> r == Some(InboundEvent(
              Field(body.fields, "event_name"), Field(body.fields, "event_time"),
              Field(body.fields, "event_source_url"), Field(body.fields, "user_data"),
              Field(body.fields, "custom_data")))
    ensures !Nullish(body) && !body.Obj? ==>
              r == Some(InboundEvent(Undefined, Undefined, Undefined, Undefined, Undefined))
  {
    match body
    case Undefined => None
    case Null => None
    case Obj(fields) =>
      Some(InboundEvent(Field(fields, "event_name"), Field(fields, "event_time"),
                        Field(fields, "event_source_url"), Field(fields, "user_data"),
                        Field(fields, "custom_data")))
    case _ => Some(InboundEvent(Undefined, Undefined, Undefined, Undefined, Undefined))
  }

  /** `Math.floor(now / 1000)` for a clock reading in milliseconds. */
  function UnixSeconds(nowMillis: int): (t: int)
    ensures t * 1000 <= nowMillis < t * 1000 + 1000
  {
    nowMillis / 1000
  }

  /** `req.headers['user-agent']`, verbatim, `undefined` when absent. */
  function UserAgent(headers: map<string, string>): (v: Value)
    ensures "user-agent" in headers ==> v == Str(headers["user-agent"])
    ensures "user-agent" !in headers ==> v == Undefined
  {
    if "user-agent" in headers then Str(headers["user-agent"]) else Undefined
  }

  /** `{ client_ip_address, client_user_agent, ...user_data }`: the derived
      fields first, then every property the caller's value spreads into,
      which wins on a clash. */
  function UserData(clientIp: string, userAgent: Value, caller: Value): (m: map<string, Value>)
    ensures m.Keys == {"client_ip_address", "client_user_agent"} + Spread(caller).Keys
    ensures forall k :: k in Spread(caller) ==> m[k] == Spread(caller)[k]
    ensures m["client_ip_address"] ==
              if "client_ip_address" in Spread(caller) then Spread(caller)["client_ip_address"]
              else Str(clientIp)
    ensures m["client_user_agent"] ==
              if "client_user_agent" in Spread(caller) then Spread(caller)["client_user_agent"]
              else userAgent
  {
    map["client_ip_address" := Str(clientIp), "client_user_agent" := userAgent] + Spread(caller)
  }

  /** The keys of the event object literal before `custom_data` is considered. */
  function EventKeys(): set<string> {
    {"event_name", "event_time", "event_source_url", "action_source", "user_data"}
  }

  /** `event_time || Math.floor(Date.now() / 1000)`. */
  function EventTime(callerTime: Value, nowMillis: int): (v: Value)
    ensures Truthy(callerTime) ==> v == callerTime
    ensures !Truthy(callerTime) ==> v.Num? && v.n.Floor * 1000 <= nowMillis < v.n.Floor * 1000 + 1000
                                    && v.n == v.n.Floor as real
  {
    if Truthy(callerTime) then callerTime else Num(UnixSeconds(nowMillis) as real)
  }

  /** The event object literal: the caller's name and URL as given, the time
      defaulted, the fixed action source, and the merged user data. */
  function BaseEvent(ev: InboundEvent, clientIp: string, userAgent: Value, nowMillis: int): (e: map<string, Value>)
    ensures e.Keys == EventKeys()
    ensures e["event_name"] == ev.eventName && e["event_source_url"] == ev.eventSourceUrl
    ensures e["event_time"] == EventTime(ev.eventTime, nowMillis)
    ensures e["action_source"] == Str("website")
    ensures e["user_data"] == Obj(UserData(clientIp, userAgent, ev.userData))
  {
    map[
      "event_name" := ev.eventName,
      "event_time" := EventTime(ev.eventTime, nowMillis),
      "event_source_url" := ev.eventSourceUrl,
      "action_source" := Str("website"),
      "user_data" := Obj(UserData(clientIp, userAgent, ev.userData))
    ]
  }

  /** The event after `if (custom_data) eventData.custom_data = custom_data`:
      the key is there exactly when the caller's value is truthy, holds that
      value unchanged, and nothing else differs from the literal. */
  function Event(ev: InboundEvent, clientIp: string, userAgent: Value, nowMillis: int): (e: map<string, Value>)
    ensures ("custom_data" in e) == Truthy(ev.customData)
    ensures "custom_data" in e ==> e["custom_data"] == ev.customData
    ensures e.Keys == EventKeys() + (if Truthy(ev.customData) then {"custom_data"} else {})
    ensures forall k :: k in EventKeys() ==> e[k] == BaseEvent(ev, clientIp, userAgent, nowMillis)[k]
    ensures e["action_source"] == Str("website")
  {
    var base := BaseEvent(ev, clientIp, userAgent, nowMillis);
    if Truthy(ev.customData) then base["custom_data" := ev.customData] else base
  }

  /** `{ data: [eventData], access_token }`: a one-event batch carrying the
      credential in the body. */
  function Payload(event: map<string, Value>, token: string): (p: Value)
    ensures p.Obj? && p.fields.Keys == {"data", "access_token"}
    ensures p.fields["data"].Arr? && |p.fields["data"].items| == 1
    ensures p.fields["data"].items[0] == Obj(event)
    ensures p.fields["access_token"] == Str(token)
  {
    Obj(map["data" := Arr([Obj(event)]), "access_token" := Str(token)])
  }

  // ---------------------------------------------------------------------
  // Properties

  /** Every property the caller put in `user_data` reaches the destination
      with the caller's value; a derived field survives only when the caller
      did not send a key of the same name. */
  lemma CallerUserDataWins(clientIp: string, userAgent: Value, callerFields: map<string, Value>)
    ensures var m := UserData(clientIp, userAgent, Obj(callerFields));
            && (forall k :: k in callerFields ==> k in m && m[k] == callerFields[k])
            && (m["client_ip_address"] == Str(clientIp) <==>
                  "client_ip_address" !in callerFields || callerFields["client_ip_address"] == Str(clientIp))
            && (m["client_user_agent"] == userAgent <==>
                  "client_user_agent" !in callerFields || callerFields["client_user_agent"] == userAgent)
  {
  }

  /** A caller value that spreads into nothing (absent, null, a number or a
      boolean) leaves exactly the two derived fields. */
  lemma NoCallerUserData(clientIp: string, userAgent: Value, caller: Value)
    requires !(caller.Obj? || caller.Arr? || caller.Str?)
    ensures UserData(clientIp, userAgent, caller)
         == map["client_ip_address" := Str(clientIp), "client_user_agent" := userAgent]
  {
    assert Spread(caller) == map[];
  }

  /** A caller-supplied time of 0 is falsy and is replaced by the clock, as
      is an absent one. */
  lemma ZeroTimeIsDefaulted(nowMillis: int)
    ensures EventTime(Num(0.0), nowMillis) == EventTime(Undefined, nowMillis)
    ensures EventTime(Undefined, nowMillis) == Num((nowMillis / 1000) as real)
  {
  }
}
