/** `WebViewTrackingCore`: forwards parsed web-view messages to the
    message bus under the key of the feature that consumes them. */
module WebViewTracking {
  import opened Wrappers
  import opened WebViewTrackingMessage

  const BrowserLogKey := "browser-log"
  const BrowserRUMEventKey := "browser-rum-event"
  const LogLostWarning := "A WebView log is lost because Logging is disabled in the SDK"
  const RUMEventLostWarning := "A WebView RUM event is lost because RUM is disabled in the SDK"

  /** `FeatureMessage.custom(key:baggage:)`. */
  datatype BusMessage = Custom(key: string, baggage: JsonObject)

  /** The effect of one send: the message put on the bus and the warnings
      logged because no receiver took it. */
  datatype Delivery = Delivery(message: BusMessage, warnings: seq<string>)

  /** `send(message:)`; `received` is the bus's answer, false when it ran
      the `else` closure. */
  function SendMessage(message: Message, received: bool): (d: Delivery)
    ensures d.message.baggage == message.event
    ensures message.Log? ==> d.message.key == BrowserLogKey
    ensures message.RumEvent? ==> d.message.key == BrowserRUMEventKey
    ensures received ==> d.warnings == []
    ensures !received ==> d.warnings == [if message.Log? then LogLostWarning else RUMEventLostWarning]
  {
    var bus := match message
      case Log(event) => Custom(BrowserLogKey, event)
      case RumEvent(event) => Custom(BrowserRUMEventKey, event);
    var warning := if message.Log? then LogLostWarning else RUMEventLostWarning;
    Delivery(bus, if received then [] else [warning])
  }

  /** `send(body:)`: a body that does not parse is rejected before anything
      reaches the bus; one that parses becomes exactly one bus message whose
      baggage is the parsed event. `accepts` tells whether any receiver on
      the bus takes a message. */
  function SendBody(body: Body, f: Foundation, accepts: BusMessage -> bool): (r: Result<Delivery, ParseError>)
    ensures FromBody(body, f).Failure? ==> r == Failure(FromBody(body, f).error)
    ensures r.Success? <==> FromBody(body, f).Success?
    ensures r.Success? ==>
      && r.value.message.baggage == FromBody(body, f).value.event
      && (r.value.warnings == [] <==> accepts(r.value.message))
    // the delivery is the routing of the parsed message
    ensures r.Success? ==>
      r.value == SendMessage(FromBody(body, f).value, accepts(SendMessage(FromBody(body, f).value, true).message))
  {
    match FromBody(body, f)
    case Failure(e) => Failure(e)
    case Success(message) =>
      var routed := SendMessage(message, true).message;
      Success(SendMessage(message, accepts(routed)))
  }

  /** The key depends only on the event type in the envelope. */
  lemma RoutesByEventType(text: string, f: Foundation, accepts: BusMessage -> bool, eventType: string, event: JsonObject)
    requires f.utf8(text).Some?
    requires f.jsonObject(f.utf8(text).value) == Success(JObject(Envelope(eventType, event)))
    ensures SendBody(StringBody(text), f, accepts).Success?
    ensures SendBody(StringBody(text), f, accepts).value.message ==
      Custom(if eventType == LogEventType then BrowserLogKey else BrowserRUMEventKey, event)
  {
    EnvelopeRoundTrip(text, f, eventType, event);
  }
}
