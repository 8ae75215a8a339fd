/** `WebViewTrackingMessage`: validation of the untyped body a web view
    posts into a typed log or RUM event message. UTF-8 encoding and
    `JSONSerialization` are Foundation calls, taken here as given functions. */
module WebViewTrackingMessage {
  import opened Wrappers

  /** A value `JSONSerialization` can produce. */
  datatype Json =
    | JNull
    | JBool(b: bool)
    | JNumber(n: real)
    | JString(s: string)
    | JArray(items: seq<Json>)
    | JObject(fields: map<string, Json>)

  /** `typealias JSON = [String: Any]`: a JSON object. */
  type JsonObject = map<string, Json>

  /** The `Any` body a web view posts: a string, or anything else, which is
      only ever described. */
  datatype Body = StringBody(text: string) | OtherBody(description: string)

  /** The Foundation services parsing relies on. */
  datatype Foundation = Foundation(
    utf8: string -> Option<seq<byte>>,
    jsonObject: seq<byte> -> Result<Json, string>,
    describe: Json -> string)

  datatype WebViewTrackingMessageError =
    | DataSerialization(message: string)
    | JSONDeserialization(rawJSONDescription: string)
    | InvalidMessage(description: string)
    | MissingKey(key: string)

  /** What `init(body:)` can throw: one of its own errors, or the error
      `JSONSerialization.jsonObject` throws, passed on unchanged. */
  datatype ParseError = MessageError(error: WebViewTrackingMessageError) | SerializationError(description: string)

  datatype Message = Log(event: JsonObject) | RumEvent(event: JsonObject)

  const EventTypeKey := "eventType"
  const EventKey := "event"
  const LogEventType := "log"

  /** `parse(_:)`: encode, deserialize, and insist on an object at the top. */
  function Parse(message: string, f: Foundation): (r: Result<JsonObject, ParseError>)
    ensures f.utf8(message).None? ==> r == Failure(MessageError(DataSerialization(message)))
    ensures f.utf8(message).Some? && f.jsonObject(f.utf8(message).value).Failure? ==>
      r == Failure(SerializationError(f.jsonObject(f.utf8(message).value).error))
    ensures r.Success? <==>
      f.utf8(message).Some? && f.jsonObject(f.utf8(message).value).Success?
      && f.jsonObject(f.utf8(message).value).value.JObject?
    ensures r.Success? ==> JObject(r.value) == f.jsonObject(f.utf8(message).value).value
    ensures (f.utf8(message).Some? && f.jsonObject(f.utf8(message).value).Success?
             && !f.jsonObject(f.utf8(message).value).value.JObject?) ==>
      r == Failure(MessageError(JSONDeserialization(f.describe(f.jsonObject(f.utf8(message).value).value))))
  {
    match f.utf8(message)
    case None => Failure(MessageError(DataSerialization(message)))
    case Some(data) =>
      match f.jsonObject(data)
      case Failure(e) => Failure(SerializationError(e))
      case Success(raw) =>
        if raw.JObject? then Success(raw.fields)
        else Failure(MessageError(JSONDeserialization(f.describe(raw))))
  }

  /** `json["eventType"] as? String`. */
  function EventType(json: JsonObject): (r: Option<string>)
    ensures r.Some? <==> EventTypeKey in json && json[EventTypeKey].JString?
    ensures r.Some? ==> json[EventTypeKey] == JString(r.value)
  {
    if EventTypeKey in json && json[EventTypeKey].JString? then Some(json[EventTypeKey].s) else None
  }

  /** `json["event"] as? JSON`. */
  function EventObject(json: JsonObject): (r: Option<JsonObject>)
    ensures r.Some? <==> EventKey in json && json[EventKey].JObject?
    ensures r.Some? ==> json[EventKey] == JObject(r.value)
  {
    if EventKey in json && json[EventKey].JObject? then Some(json[EventKey].fields) else None
  }

  /** `init(body:)`. The body is validated in this order: it is a string,
      it parses to an object, `eventType` is a string, `event` is an object. */
  function FromBody(body: Body, f: Foundation): (r: Result<Message, ParseError>)
    ensures body.OtherBody? ==> r == Failure(MessageError(InvalidMessage(body.description)))
    ensures body.StringBody? && Parse(body.text, f).Failure? ==> r == Failure(Parse(body.text, f).error)
    ensures body.StringBody? && Parse(body.text, f).Success? && EventType(Parse(body.text, f).value).None? ==>
      r == Failure(MessageError(MissingKey(EventTypeKey)))
    ensures (body.StringBody? && Parse(body.text, f).Success? && EventType(Parse(body.text, f).value).Some?
             && EventObject(Parse(body.text, f).value).None?) ==>
      r == Failure(MessageError(MissingKey(EventKey)))
    ensures r.Success? <==>
      body.StringBody? && Parse(body.text, f).Success?
      && EventType(Parse(body.text, f).value).Some? && EventObject(Parse(body.text, f).value).Some?
    ensures r.Success? ==>
      && r.value.event == EventObject(Parse(body.text, f).value).value
      && (r.value.Log? <==> EventType(Parse(body.text, f).value) == Some(LogEventType))
  {
    match body
    case OtherBody(description) => Failure(MessageError(InvalidMessage(description)))
    case StringBody(text) =>
      match Parse(text, f)
      case Failure(e) => Failure(e)
      case Success(json) =>
        match EventType(json)
        case None => Failure(MessageError(MissingKey(EventTypeKey)))
        case Some(eventType) =>
          match EventObject(json)
          case None => Failure(MessageError(MissingKey(EventKey)))
          case Some(event) =>
            if eventType == LogEventType then Success(Log(event)) else Success(RumEvent(event))
  }

  /** The envelope a web view wraps an event in. */
  function Envelope(eventType: string, event: JsonObject): (r: JsonObject)
    ensures EventType(r) == Some(eventType) && EventObject(r) == Some(event)
  {
    map[EventTypeKey := JString(eventType), EventKey := JObject(event)]
  }

  /** An envelope whose type is `log` comes back as a log carrying the same
      event; any other type comes back as a RUM event carrying it. */
  lemma EnvelopeRoundTrip(text: string, f: Foundation, eventType: string, event: JsonObject)
    requires f.utf8(text).Some?
    requires f.jsonObject(f.utf8(text).value) == Success(JObject(Envelope(eventType, event)))
    ensures FromBody(StringBody(text), f) ==
      Success(if eventType == LogEventType then Log(event) else RumEvent(event))
  {
    assert Parse(text, f) == Success(Envelope(eventType, event));
  }
}
