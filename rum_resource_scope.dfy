/** `RUMResourceScope`: the lifetime of one resource load in RUM. Metrics
    may arrive while it is open; a stop, or a stop with an error, writes one
    event and closes it. Dates and durations are integers in one common
    unit; the source's millisecond dates, nanosecond durations and the
    floating-point conversions between them are not modelled. */
module RUMResourceScope {
  import opened Wrappers

  datatype RUMResourceKind = Image | Xhr | Beacon | Css | Document | Fetch | Font | Js | Media | Other | Native

  datatype RUMHTTPMethod = Get | Post | Put | Delete | Head | Patch

  datatype RUMErrorSource = SourceError | NetworkError | CustomError | WebviewError | ConsoleError | LoggerError

  datatype AttributeValue = AttrString(s: string) | AttrInt(i: int) | AttrBool(b: bool)

  type Attributes = map<string, AttributeValue>

  /** `merge(rumCommandAttributes:)`: the command's attributes are added,
      and win over the ones already there. */
  function Merged(attributes: Attributes, command: Attributes): (r: Attributes)
    ensures r.Keys == attributes.Keys + command.Keys
    ensures forall k :: k in command ==> r[k] == command[k]
    ensures forall k :: k in attributes && k !in command ==> r[k] == attributes[k]
  {
    attributes + command
  }

  datatype DateInterval = DateInterval(start: int, end: int)

  /** `ResourceMetrics`: the fetch interval, optional phase intervals and the
      optional response size. */
  datatype ResourceMetrics = ResourceMetrics(
    fetch: DateInterval,
    redirection: Option<DateInterval>,
    dns: Option<DateInterval>,
    connect: Option<DateInterval>,
    ssl: Option<DateInterval>,
    firstByte: Option<DateInterval>,
    download: Option<DateInterval>,
    responseSize: Option<int>)

  datatype RUMCommand =
    | StopResource(resourceKey: string, time: int, attributes: Attributes,
                   kind: RUMResourceKind, httpStatusCode: Option<int>, size: Option<int>)
    | StopResourceWithError(resourceKey: string, time: int, attributes: Attributes,
                            errorMessage: string, errorSource: RUMErrorSource,
                            httpStatusCode: Option<int>, stack: Option<string>)
    | AddResourceMetrics(resourceKey: string, time: int, attributes: Attributes, metrics: ResourceMetrics)
    | OtherCommand(time: int, attributes: Attributes)

  /** A phase of the load: its duration and its start relative to the resource's start. */
  datatype PhaseTiming = PhaseTiming(duration: int, start: int)

  /** The fields of `RUMResourceEvent` the scope decides. */
  datatype ResourceEventData = ResourceEventData(
    date: int, duration: int, size: int, statusCode: Option<int>, kind: RUMResourceKind,
    url: string, httpMethod: RUMHTTPMethod,
    connect: Option<PhaseTiming>, dns: Option<PhaseTiming>, download: Option<PhaseTiming>,
    firstByte: Option<PhaseTiming>, redirect: Option<PhaseTiming>, ssl: Option<PhaseTiming>)

  /** The fields of `RUMErrorEvent` the scope decides. */
  datatype ErrorEventData = ErrorEventData(
    date: int, isCrash: bool, message: string, source: RUMErrorSource, stack: Option<string>,
    statusCode: int, url: string, httpMethod: RUMHTTPMethod)

  /** What `eventOutput.write(rumEvent:)` receives: the data and the attributes. */
  datatype RUMEvent =
    | ResourceEvent(resource: ResourceEventData, attributes: Attributes)
    | ErrorEvent(error: ErrorEventData, attributes: Attributes)

  /** What the scope was started with and never changes. */
  datatype Resource = Resource(
    resourceKey: string, url: string, loadingStartTime: int, serverTimeOffset: int,
    httpMethod: RUMHTTPMethod, kindBasedOnRequest: Option<RUMResourceKind>)

  function Phase(interval: Option<DateInterval>, resourceStart: int): (r: Option<PhaseTiming>)
    ensures r.Some? <==> interval.Some?
    ensures r.Some? ==> r.value == PhaseTiming(interval.value.end - interval.value.start, interval.value.start - resourceStart)
  {
    match interval
    case None => None
    case Some(i) => Some(PhaseTiming(i.end - i.start, i.start - resourceStart))
  }

  /** The resource event of `sendResourceEvent(on:)`: metrics, when present,
      take precedence over what the scope and the command know. */
  function ResourceEventFor(r: Resource, metrics: Option<ResourceMetrics>, command: RUMCommand): (e: ResourceEventData)
    requires command.StopResource?
    ensures metrics.Some? ==>
      && e.date == metrics.value.fetch.start + r.serverTimeOffset
      && e.duration == metrics.value.fetch.end - metrics.value.fetch.start
      && e.size == (if metrics.value.responseSize.Some? then metrics.value.responseSize.value
                    else if command.size.Some? then command.size.value else 0)
    // each phase is measured from the start of the fetch
    ensures metrics.Some? ==>
      && e.connect == Phase(metrics.value.connect, metrics.value.fetch.start)
      && e.dns == Phase(metrics.value.dns, metrics.value.fetch.start)
      && e.download == Phase(metrics.value.download, metrics.value.fetch.start)
      && e.firstByte == Phase(metrics.value.firstByte, metrics.value.fetch.start)
      && e.redirect == Phase(metrics.value.redirection, metrics.value.fetch.start)
      && e.ssl == Phase(metrics.value.ssl, metrics.value.fetch.start)
    ensures metrics.None? ==>
      && e.date == r.loadingStartTime + r.serverTimeOffset
      && e.duration == command.time - r.loadingStartTime
      && e.size == (if command.size.Some? then command.size.value else 0)
      && e.connect.None? && e.dns.None? && e.download.None? && e.firstByte.None? && e.redirect.None? && e.ssl.None?
    ensures e.kind == if r.kindBasedOnRequest.Some? then r.kindBasedOnRequest.value else command.kind
    ensures e.statusCode == command.httpStatusCode
    ensures e.url == r.url && e.httpMethod == r.httpMethod
  {
    var start := if metrics.Some? then metrics.value.fetch.start else r.loadingStartTime;
    var duration := if metrics.Some? then metrics.value.fetch.end - metrics.value.fetch.start
                    else command.time - r.loadingStartTime;
    var size := if metrics.Some? && metrics.value.responseSize.Some? then metrics.value.responseSize else command.size;
    ResourceEventData(
      date := start + r.serverTimeOffset,
      duration := duration,
      size := size.GetOr(0),
      statusCode := command.httpStatusCode,
      kind := r.kindBasedOnRequest.GetOr(command.kind),
      url := r.url,
      httpMethod := r.httpMethod,
      connect := if metrics.Some? then Phase(metrics.value.connect, start) else None,
      dns := if metrics.Some? then Phase(metrics.value.dns, start) else None,
      download := if metrics.Some? then Phase(metrics.value.download, start) else None,
      firstByte := if metrics.Some? then Phase(metrics.value.firstByte, start) else None,
      redirect := if metrics.Some? then Phase(metrics.value.redirection, start) else None,
      ssl := if metrics.Some? then Phase(metrics.value.ssl, start) else None)
  }

  /** The error event of `sendErrorEvent(on:)`: dated at the command, never
      a crash, and a missing status code becomes 0. */
  function ErrorEventFor(r: Resource, command: RUMCommand): (e: ErrorEventData)
    requires command.StopResourceWithError?
    ensures e.date == command.time + r.serverTimeOffset
    ensures !e.isCrash
    ensures e.statusCode == if command.httpStatusCode.Some? then command.httpStatusCode.value else 0
    ensures e.message == command.errorMessage && e.source == command.errorSource && e.stack == command.stack
    ensures e.url == r.url && e.httpMethod == r.httpMethod
  {
    ErrorEventData(command.time + r.serverTimeOffset, false, command.errorMessage, command.errorSource,
                   command.stack, command.httpStatusCode.GetOr(0), r.url, r.httpMethod)
  }

  /** What `process(command:)` can change. */
  datatype ScopeState = ScopeState(attributes: Attributes, metrics: Option<ResourceMetrics>, output: seq<RUMEvent>)

  /** Whether the command is addressed to this resource. */
  predicate Targets(r: Resource, command: RUMCommand) {
    !command.OtherCommand? && command.resourceKey == r.resourceKey
  }

  /** `process(command:)`: whether the scope stays open, and its new state. */
  function Processed(r: Resource, s: ScopeState, command: RUMCommand): (result: (bool, ScopeState))
    ensures !Targets(r, command) ==> result == (true, s)
    ensures Targets(r, command) && command.AddResourceMetrics? ==>
      result == (true, ScopeState(Merged(s.attributes, command.attributes), Some(command.metrics), s.output))
    ensures Targets(r, command) && command.StopResource? ==>
      var attributes := Merged(s.attributes, command.attributes);
      result == (false, ScopeState(attributes, s.metrics,
                                   s.output + [ResourceEvent(ResourceEventFor(r, s.metrics, command), attributes)]))
    ensures Targets(r, command) && command.StopResourceWithError? ==>
      var attributes := Merged(s.attributes, command.attributes);
      result == (false, ScopeState(attributes, s.metrics,
                                   s.output + [ErrorEvent(ErrorEventFor(r, command), attributes)]))
    // at most one event per command, and only when the scope closes
    ensures |result.1.output| == |s.output| + (if result.0 then 0 else 1)
    ensures result.1.output[..|s.output|] == s.output
  {
    if !Targets(r, command) then (true, s)
    else
      var attributes := Merged(s.attributes, command.attributes);
      match command
      case StopResource(_, _, _, _, _, _) =>
        (false, s.(attributes := attributes,
                   output := s.output + [ResourceEvent(ResourceEventFor(r, s.metrics, command), attributes)]))
      case StopResourceWithError(_, _, _, _, _, _, _) =>
        (false, s.(attributes := attributes, output := s.output + [ErrorEvent(ErrorEventFor(r, command), attributes)]))
      case AddResourceMetrics(_, _, _, metrics) =>
        (true, s.(attributes := attributes, metrics := Some(metrics)))
  }

  /** Commands for other resources and other kinds of command in between do
      not disturb a scope: after metrics for this resource, a stop writes an
      event whose start, duration and size come from those metrics. */
  lemma {:induction false} MetricsThenStop(r: Resource, s: ScopeState, metrics: ResourceMetrics, others: seq<RUMCommand>, add: RUMCommand, stop: RUMCommand)
    requires add == AddResourceMetrics(r.resourceKey, add.time, add.attributes, metrics)
    requires stop.StopResource? && stop.resourceKey == r.resourceKey
    requires forall i :: 0 <= i < |others| ==> !Targets(r, others[i])
    ensures var started := Processed(r, s, add);
      var waited := ProcessedAll(r, started.1, others);
      var closed := Processed(r, waited.1, stop);
      && started.0 && waited.0 && !closed.0
      && closed.1.output == s.output + [ResourceEvent(ResourceEventFor(r, Some(metrics), stop), closed.1.attributes)]
      && closed.1.output[|s.output|].resource.date == metrics.fetch.start + r.serverTimeOffset
      && closed.1.output[|s.output|].resource.duration == metrics.fetch.end - metrics.fetch.start
  {
    var started := Processed(r, s, add);
    UntargetedCommandsChangeNothing(r, started.1, others);
  }

  /** `process` over a run of commands, stopping at the first that closes. */
  function ProcessedAll(r: Resource, s: ScopeState, commands: seq<RUMCommand>): (bool, ScopeState)
    decreases |commands|
  {
    if commands == [] then (true, s)
    else
      var step := Processed(r, s, commands[0]);
      if !step.0 then step else ProcessedAll(r, step.1, commands[1..])
  }

  lemma {:induction false} UntargetedCommandsChangeNothing(r: Resource, s: ScopeState, commands: seq<RUMCommand>)
    requires forall i :: 0 <= i < |commands| ==> !Targets(r, commands[i])
    ensures ProcessedAll(r, s, commands) == (true, s)
    decreases |commands|
  {
    if commands != [] {
      UntargetedCommandsChangeNothing(r, s, commands[1..]);
    }
  }

  /** Over any run of commands the scope writes at most one event, and
      only if it closes. */
  lemma {:induction false} AtMostOneEvent(r: Resource, s: ScopeState, commands: seq<RUMCommand>)
    ensures var result := ProcessedAll(r, s, commands);
      |result.1.output| == |s.output| + (if result.0 then 0 else 1)
      && result.1.output[..|s.output|] == s.output
    decreases |commands|
  {
    if commands != [] {
      var step := Processed(r, s, commands[0]);
      if step.0 {
        AtMostOneEvent(r, step.1, commands[1..]);
        var result := ProcessedAll(r, step.1, commands[1..]);
        assert result.1.output[..|s.output|] == result.1.output[..|step.1.output|][..|s.output|];
      }
    }
  }

  class RUMResourceScope {
    const resource: Resource
    var attributes: Attributes
    var resourceMetrics: Option<ResourceMetrics>
    /** The events handed to `eventOutput`. */
    var output: seq<RUMEvent>

    ghost function State(): ScopeState
      reads this
    {
      ScopeState(attributes, resourceMetrics, output)
    }

    constructor (resource: Resource, attributes: Attributes)
      ensures this.resource == resource && State() == ScopeState(attributes, None, [])
    {
      this.resource := resource;
      this.attributes := attributes;
      resourceMetrics := None;
      output := [];
    }

    /** `process(command:)`: returns whether the scope stays open. */
    method Process(command: RUMCommand) returns (keepAlive: bool)
      modifies this
      ensures (keepAlive, State()) == Processed(resource, old(State()), command)
    {
      keepAlive := true;
      if !Targets(resource, command) {
        return;
      }
      match command {
        case StopResource(_, _, _, _, _, _) =>
          SendResourceEvent(command);
          keepAlive := false;
        case StopResourceWithError(_, _, _, _, _, _, _) =>
          SendErrorEvent(command);
          keepAlive := false;
        case AddResourceMetrics(_, _, _, _) =>
          AddMetrics(command);
      }
    }

    method AddMetrics(command: RUMCommand)
      requires command.AddResourceMetrics?
      modifies this
      ensures attributes == Merged(old(attributes), command.attributes)
      ensures resourceMetrics == Some(command.metrics) && output == old(output)
    {
      attributes := Merged(attributes, command.attributes);
      resourceMetrics := Some(command.metrics);
    }

    method SendResourceEvent(command: RUMCommand)
      requires command.StopResource?
      modifies this
      ensures attributes == Merged(old(attributes), command.attributes) && resourceMetrics == old(resourceMetrics)
      ensures output == old(output) + [ResourceEvent(ResourceEventFor(resource, resourceMetrics, command), attributes)]
    {
      attributes := Merged(attributes, command.attributes);
      var data := ResourceEventFor(resource, resourceMetrics, command);
      output := output + [ResourceEvent(data, attributes)];
    }

    method SendErrorEvent(command: RUMCommand)
      requires command.StopResourceWithError?
      modifies this
      ensures attributes == Merged(old(attributes), command.attributes) && resourceMetrics == old(resourceMetrics)
      ensures output == old(output) + [ErrorEvent(ErrorEventFor(resource, command), attributes)]
    {
      attributes := Merged(attributes, command.attributes);
      var data := ErrorEventFor(resource, command);
      output := output + [ErrorEvent(data, attributes)];
    }
  }
}
