# dd-sdk-ios core, modelled in Dafny

This project models seven pieces of the Datadog iOS SDK and proves what
they promise:

- **Upload pipeline.** `DataUploadWorker` reads the oldest batch file, uploads
  it inside a background task, then deletes or keeps it. Its
  `DataUploadDelay` is pushed back or released, `flushSynchronously` drains
  the directory and `cancelSynchronously` stops the ticks. The worker's own
  source is not part of this model, so its behaviour is taken from
  `DataUploadWorkerTests.swift`.
- **`CappedCollection`.** The stats inspector's bounded buffer, which drops
  its oldest element on overflow.
- **Web-view tracking.** `WebViewTrackingMessage` validates the untyped body a
  web view posts. `WebViewTrackingCore` routes the message to the bus key of
  the feature that consumes it.
- **`ContextMessageReceiver`.** The tracer's copy of the core context: the
  app-state history and the RUM ids, renamed to span tag names.
- **`RUMResourceScope`.** The lifetime of one resource load. Metrics may
  arrive while it is open. A stop, or a stop with an error, writes one event
  and closes it.
- **Session Replay debug renderer.** The `#RRGGBBAA` colour parser and the
  default-then-override builders of a frame's style and content.

One Dafny module per source file:

| file | module |
|---|---|
| `wrappers.dfy` | `Wrappers` (`Option`, `Result`) |
| `capped_collection.dfy` | `CappedCollection` |
| `upload_delay.dfy` | `UploadDelay` |
| `batch_storage.dfy` | `BatchStorage` |
| `upload_worker.dfy` | `UploadWorker` |
| `webview_tracking_message.dfy` | `WebViewTrackingMessage` |
| `webview_tracking.dfy` | `WebViewTracking` |
| `message_receivers.dfy` | `MessageReceivers` |
| `rum_resource_scope.dfy` | `RUMResourceScope` |
| `session_replay.dfy` | `SessionReplay` |

Objects whose fields change in place are classes:

- `CappedCollection`, `DataUploadDelay`, `BatchDirectory`, `DataUploadWorker`, `ContextMessageReceiver` and `RUMResourceScope`.
- Each method is proved against a pure function of the old state, such as `Appended`, `Ticked`, `Flushed`, `Updated` or `Processed`.
- The lemmas about those functions state what holds over many steps.

Some collaborators are not part of this model and become parameters:

- the uploader is a function from an event list and the request's number to an outcome, so the network may answer a retried batch differently;
- UTF-8 encoding and `JSONSerialization` are the record of functions `Foundation`;
- the message bus is a predicate telling whether a receiver takes a message;
- `mapRUMContextAttributeKeyToSpanTagName` is a function given to the receiver;
- the battery level and the background-task identifier are arguments of each tick.

Where the worker tests settle a point differently from what a reader might
expect, the model follows the tests:

- A flush deletes every batch, whatever the upload status.
- A tick whose request could not be prepared deletes the batch.
- Every tick of a running worker holds a background task, even a tick that finds the directory empty.
- Battery admission is a strict comparison: `neverUpload()`, a threshold of 1, admits no level.
- The initial delay of a preset may lie under its floor, as the tests' quick-first-upload presets suggest.

## Model

Paths are relative to the repository root.

| member | source | states |
|---|---|---|
| CappedCollection.RemovedExtra | stats-inspector/Sources/DatadogStatsInspector/CappedCollection.swift:46-49 | with more than `maxCount` elements the first one is dropped; otherwise the elements are unchanged |
| CappedCollection.Appended | stats-inspector/Sources/DatadogStatsInspector/CappedCollection.swift:41-44 | the new element is last. Below the cap it is simply added; at or over the cap the oldest goes. A collection within its cap stays within it, and the length grows by at most one |
| CappedCollection.AppendedAllKeepsNewest | stats-inspector/Sources/DatadogStatsInspector/CappedCollection.swift:41-49 | from within the cap, any run of appends keeps exactly the newest `maxCount` of all elements seen, in order |
| CappedCollection.CappedCollection.constructor | stats-inspector/Sources/DatadogStatsInspector/CappedCollection.swift:14-17 | elements and cap are stored as given, without trimming |
| CappedCollection.CappedCollection.Empty | stats-inspector/Sources/DatadogStatsInspector/CappedCollection.swift:14-17 | with `elements` left at its default, the collection starts empty under the given cap |
| CappedCollection.CappedCollection.FromArrayLiteral | stats-inspector/Sources/DatadogStatsInspector/CappedCollection.swift:25-28 | the cap is the literal's length |
| CappedCollection.CappedCollection.StartIndex | stats-inspector/Sources/DatadogStatsInspector/CappedCollection.swift:30 | indices start at 0 |
| CappedCollection.CappedCollection.EndIndex | stats-inspector/Sources/DatadogStatsInspector/CappedCollection.swift:31 | the end index is the element count |
| CappedCollection.CappedCollection.At | stats-inspector/Sources/DatadogStatsInspector/CappedCollection.swift:33-35 | defined only between start and end index, and gives the element stored there |
| CappedCollection.CappedCollection.IndexAfter | stats-inspector/Sources/DatadogStatsInspector/CappedCollection.swift:37-39 | the next index is one more |
| CappedCollection.CappedCollection.Append | stats-inspector/Sources/DatadogStatsInspector/CappedCollection.swift:41-44 | the elements become `Appended` of the old elements under the old cap; the cap is unchanged |
| CappedCollection.CappedCollection.RemoveExtraElements | stats-inspector/Sources/DatadogStatsInspector/CappedCollection.swift:46-49 | the elements become `RemovedExtra` of the old ones; the cap is unchanged |
| UploadDelay.Increased | DatadogCore/Tests/Datadog/Core/Upload/DataUploadWorkerTests.swift:167-235 | the delay never exceeds the maximum; it never falls from within the bounds, and rises strictly from strictly inside them |
| UploadDelay.Decreased | DatadogCore/Tests/Datadog/Core/Upload/DataUploadWorkerTests.swift:237-269 | the delay never goes under the minimum; it never rises, and falls strictly from above the minimum |
| UploadDelay.MovesStayInBounds | DatadogCore/Tests/Datadog/Core/Upload/DataUploadWorkerTests.swift:170-177 | for a valid preset, both moves keep a delay inside `[minUploadDelay, maxUploadDelay]` |
| UploadDelay.MovesStayUnderCeiling | DatadogCore/Tests/Datadog/Core/Upload/DataUploadWorkerTests.swift:95 | from anywhere between zero and the ceiling, including under the floor, an increase stays there and a decrease lands inside `[minUploadDelay, maxUploadDelay]` |
| UploadDelay.DataUploadDelay.constructor | DatadogCore/Tests/Datadog/Core/Upload/DataUploadWorkerTests.swift:170-177 | the delay starts at `initialUploadDelay`, which may lie under the floor but not over the ceiling |
| UploadDelay.DataUploadDelay.Increase | DatadogCore/Tests/Datadog/Core/Upload/DataUploadWorkerTests.swift:202-235 | `current` becomes `Increased(current)` and stays between zero and the ceiling |
| UploadDelay.DataUploadDelay.Decrease | DatadogCore/Tests/Datadog/Core/Upload/DataUploadWorkerTests.swift:237-269 | `current` becomes `Decreased(current)`, which is at least the floor, and stays under the ceiling |
| BatchStorage.BatchDirectory.constructor | DatadogCore/Tests/Datadog/Core/Upload/DataUploadWorkerTests.swift:16-20 | the directory starts empty |
| BatchStorage.BatchDirectory.Write | DatadogCore/Tests/Datadog/Core/Upload/DataUploadWorkerTests.swift:53-55 | each write adds one new, newest file holding the event |
| BatchStorage.BatchDirectory.ReadNextBatch | DatadogCore/Tests/Datadog/Core/Upload/DataUploadWorkerTests.swift:26-29 | gives nothing exactly when the directory is empty, otherwise the oldest file |
| BatchStorage.BatchDirectory.DeleteOldest | DatadogCore/Tests/Datadog/Core/Upload/DataUploadWorkerTests.swift:78-104 | removes the oldest file, and does nothing on an empty directory |
| UploadWorker.BatteryGateIsStrict | DatadogCore/Tests/Datadog/Core/Upload/DataUploadWorkerTests.swift:558-565 | a battery level is admitted iff it is strictly above `minBatteryLevel`: the threshold itself is refused, and an admitted level stays admitted as it rises |
| UploadWorker.AlwaysUpload | DatadogCore/Tests/Datadog/Core/Upload/DataUploadWorkerTests.swift:559-561 | a threshold of 0 admits every positive battery level |
| UploadWorker.NeverUpload | DatadogCore/Tests/Datadog/Core/Upload/DataUploadWorkerTests.swift:563-565 | a threshold of 1 admits no battery level up to full |
| UploadWorker.StatusReports | DatadogCore/Tests/Datadog/Core/Upload/DataUploadWorkerTests.swift:318-423 | a status without error reports nothing. An unauthorized error gives exactly the user warning, an HTTP error its status-code telemetry and a network error its error telemetry, each in both directions |
| UploadWorker.TaskSpan | DatadogCore/Tests/Datadog/Core/Upload/DataUploadWorkerTests.swift:530-556 | an attempt registers a background task first, and ends it exactly when an identifier was granted |
| UploadWorker.BalancedAppendSpan | DatadogCore/Tests/Datadog/Core/Upload/DataUploadWorkerTests.swift:530-556 | appending one upload's task events keeps registrations and ends paired |
| UploadWorker.Ticked | DatadogCore/Tests/Datadog/Core/Upload/DataUploadWorkerTests.swift:78-163 | a cancelled worker changes nothing. Every other tick registers one background task and ends a granted one, whether or not it finds a batch. An idle or refused tick otherwise only raises the delay. An attempt uploads the oldest batch. Accepted: the batch is deleted and the delay lowered. Retry: the batch is kept and the delay raised. A thrown request: the batch is deleted and the initiation telemetry names the feature |
| UploadWorker.EmptyTickHoldsBackgroundTask | DatadogCore/Tests/Datadog/Core/Upload/DataUploadWorkerTests.swift:530-556 | with `alwaysUpload()` and an empty directory, the first tick registers a background task and ends the granted identifier, and uploads nothing |
| UploadWorker.TickMovesDelay | DatadogCore/Tests/Datadog/Core/Upload/DataUploadWorkerTests.swift:167-269 | from inside the bounds, no batch or no admission raises the delay. A completed upload raises it iff it needs a retry, and lowers it iff it does not |
| UploadWorker.Flushed | DatadogCore/Tests/Datadog/Core/Upload/DataUploadWorkerTests.swift:493-528 | the directory ends empty; the requests gain every batch's events oldest first. Delay, tasks, reports and the cancel flag are unchanged |
| UploadWorker.AcceptingTicksDrainInOrder | DatadogCore/Tests/Datadog/Core/Upload/DataUploadWorkerTests.swift:43-76 | with an accepting uploader, as many ticks as there are batches upload each batch once, in order, and empty the directory |
| UploadWorker.ThreeWritesAreUploadedInOrder | DatadogCore/Tests/Datadog/Core/Upload/DataUploadWorkerTests.swift:43-76 | three writes and three accepting ticks give the requests `[e1], [e2], [e3]` and no file left |
| UploadWorker.RetriedBatchIsLaterAccepted | DatadogCore/Tests/Datadog/Core/Upload/DataUploadWorkerTests.swift:137-163 | a batch kept for a retry is uploaded again by the next tick; when that attempt is accepted, the batch is deleted, having been requested twice |
| UploadWorker.RetryingTicksKeepEveryBatch | DatadogCore/Tests/Datadog/Core/Upload/DataUploadWorkerTests.swift:137-163 | with an uploader that always asks for a retry, any number of ticks keeps every batch and never lowers the delay |
| UploadWorker.CancelledWorkerUploadsNothing | DatadogCore/Tests/Datadog/Core/Upload/DataUploadWorkerTests.swift:465-491 | once cancelled, writes, ticks and cancels make no request, register no task and leave the delay |
| UploadWorker.RunKeepsDelayUnderCeiling | DatadogCore/Tests/Datadog/Core/Upload/DataUploadWorkerTests.swift:95 | over any run that starts between zero and the ceiling, as a fresh delay from a quick-first-upload preset does, the delay stays there |
| UploadWorker.RunKeepsDelayInBounds | DatadogCore/Tests/Datadog/Core/Upload/DataUploadWorkerTests.swift:167-269 | over any run of writes, ticks, flushes and cancels that starts within the preset's bounds, the delay stays within them |
| UploadWorker.RunKeepsTasksBalanced | DatadogCore/Tests/Datadog/Core/Upload/DataUploadWorkerTests.swift:530-556 | over any run, every granted background task is ended right after its registration |
| UploadWorker.ApplyDeletesOnlyOldest | DatadogCore/Tests/Datadog/Core/Upload/DataUploadWorkerTests.swift:78-163 | one step removes some of the oldest batches and appends what it writes |
| UploadWorker.RunDeletesOnlyOldest | DatadogCore/Tests/Datadog/Core/Upload/DataUploadWorkerTests.swift:493-528 | batches leave only from the oldest end: the directory is always a suffix of what it held plus what was written since |
| UploadWorker.DataUploadWorker.constructor | DatadogCore/Tests/Datadog/Core/Upload/DataUploadWorkerTests.swift:58-66 | the worker starts with no request, task or report and not cancelled |
| UploadWorker.DataUploadWorker.Tick | DatadogCore/Tests/Datadog/Core/Upload/DataUploadWorkerTests.swift:78-163 | the directory, delay and sinks become `Ticked` of their old values |
| UploadWorker.DataUploadWorker.FlushSynchronously | DatadogCore/Tests/Datadog/Core/Upload/DataUploadWorkerTests.swift:493-528 | the loop leaves the state `Flushed` of the old state |
| UploadWorker.DataUploadWorker.CancelSynchronously | DatadogCore/Tests/Datadog/Core/Upload/DataUploadWorkerTests.swift:465-491 | only the cancel flag changes, to true |
| WebViewTrackingMessage.Parse | DatadogWebViewTracking/Sources/WebViewTrackingMessage.swift:63-72 | text without a UTF-8 form gives `dataSerialization`, and a throwing deserializer's error is passed on. A non-object top level gives `JSONDeserialization` with its description. It succeeds iff encoding and deserialization succeed with an object, which it returns |
| WebViewTrackingMessage.EventType | DatadogWebViewTracking/Sources/WebViewTrackingMessage.swift:47 | gives a type iff `eventType` holds a string, and gives that string |
| WebViewTrackingMessage.EventObject | DatadogWebViewTracking/Sources/WebViewTrackingMessage.swift:51 | gives an event iff `event` holds an object, and gives that object |
| WebViewTrackingMessage.FromBody | DatadogWebViewTracking/Sources/WebViewTrackingMessage.swift:40-61 | checks in order: a non-string body (`invalidMessage`), a parse error, missing `eventType` and missing `event` (`missingKey` with that key). It succeeds iff all pass, carrying the event, and gives a log iff the type is `"log"` |
| WebViewTrackingMessage.Envelope | DatadogWebViewTracking/Sources/WebViewTrackingMessage.swift:29-32 | the envelope's `eventType` and `event` read back as what was put in |
| WebViewTrackingMessage.EnvelopeRoundTrip | DatadogWebViewTracking/Sources/WebViewTrackingMessage.swift:40-61 | text that deserializes to an envelope parses back to a log (type `"log"`) or a RUM event carrying the same event |
| WebViewTracking.SendMessage | DatadogWebViewTracking/Sources/WebViewTracking.swift:45-56 | logs go to `browser-log` and RUM events to `browser-rum-event`, with the event as baggage. An untaken message logs exactly its feature's warning; a taken one logs nothing |
| WebViewTracking.SendBody | DatadogWebViewTracking/Sources/WebViewTracking.swift:38-41 | a body that fails to parse is rejected with the same error before reaching the bus. Otherwise exactly one message goes out with the parsed event, and warnings are empty iff it is taken. The delivery is exactly `SendMessage` of the parsed message, so its key and its warning follow the message kind |
| WebViewTracking.RoutesByEventType | DatadogWebViewTracking/Sources/WebViewTracking.swift:38-56 | an enveloped event reaches the bus under the log key iff its type is `"log"`, carrying the event |
| MessageReceivers.RumIds | DatadogTrace/Sources/Feature/MessageReceivers.swift:54 | the ids are present iff the `rum` attributes hold an `ids` dictionary, and then they are that dictionary |
| MessageReceivers.PresentTags | DatadogTrace/Sources/Feature/MessageReceivers.swift:55 | keeps exactly the entries with a value, each with its key and value |
| MessageReceivers.MappedTags | DatadogTrace/Sources/Feature/MessageReceivers.swift:56 | for a key map injective on the present keys: the keys are exactly the mapped names, each holding its original value, and no tag is lost |
| MessageReceivers.InjectiveImageSize | DatadogTrace/Sources/Feature/MessageReceivers.swift:56 | the image of the keys under an injective map is as large as the keys |
| MessageReceivers.Wrapped | DatadogTrace/Sources/Feature/MessageReceivers.swift:57 | every tag is stored under its key as a present optional |
| MessageReceivers.Updated | DatadogTrace/Sources/Feature/MessageReceivers.swift:50-62 | the history is always replaced. The RUM tags are replaced only with bundling on and ids present: then every stored value is present, every present id appears under its mapped name with its value, and every tag comes from one |
| MessageReceivers.ContextMessageReceiver.constructor | DatadogTrace/Sources/Feature/MessageReceivers.swift:27-31 | the context starts with neither RUM tags nor history |
| MessageReceivers.ContextMessageReceiver.Receive | DatadogTrace/Sources/Feature/MessageReceivers.swift:38-45 | a message is taken iff it is `.context`; taking it makes the context `Updated`, and any other message leaves it unchanged |
| MessageReceivers.ContextMessageReceiver.Update | DatadogTrace/Sources/Feature/MessageReceivers.swift:50-62 | always returns true; the loop that builds the mapped tags leaves the context `Updated` |
| RUMResourceScope.Merged | Sources/Datadog/RUM/RUMMonitor/Scopes/RUMResourceScope.swift:85 | the command's attributes are added and win on shared keys; the others are kept |
| RUMResourceScope.Phase | Sources/Datadog/RUM/RUMMonitor/Scopes/RUMResourceScope.swift:121-126 | a phase is reported iff its interval is known, with its duration and its start relative to the resource's start |
| RUMResourceScope.ResourceEventFor | Sources/Datadog/RUM/RUMMonitor/Scopes/RUMResourceScope.swift:91-178 | with metrics: date, duration and size come from them, falling back to the command's size, then 0, and each of the six phases (connect, DNS, download, first byte, redirection, SSL) is its metrics interval measured from the fetch start. Without: the loading start time and command are used, the size falls back to 0, and no phase is reported. The type prefers the request-based kind; status code, URL and method are passed through |
| RUMResourceScope.ErrorEventFor | Sources/Datadog/RUM/RUMMonitor/Scopes/RUMResourceScope.swift:180-215 | the event is dated at the command and is never a crash. A missing status code becomes 0; message, source, stack, URL and method are passed through |
| RUMResourceScope.Processed | Sources/Datadog/RUM/RUMMonitor/Scopes/RUMResourceScope.swift:68-87 | another key or kind of command changes nothing and keeps the scope. Matching metrics are stored, attributes merged, nothing written, scope kept. A matching stop, or stop with error, merges attributes, writes exactly one event of the matching kind and closes |
| RUMResourceScope.MetricsThenStop | Sources/Datadog/RUM/RUMMonitor/Scopes/RUMResourceScope.swift:98-107 | after metrics for this resource and any unrelated commands, a stop writes one resource event whose date and duration come from the metrics' fetch interval |
| RUMResourceScope.UntargetedCommandsChangeNothing | Sources/Datadog/RUM/RUMMonitor/Scopes/RUMResourceScope.swift:78-81 | a run of commands for other resources leaves the scope as it was, and open |
| RUMResourceScope.AtMostOneEvent | Sources/Datadog/RUM/RUMMonitor/Scopes/RUMResourceScope.swift:68-82 | over any run of commands the scope writes at most one event, only when it closes, and never rewrites earlier output |
| RUMResourceScope.RUMResourceScope.constructor | Sources/Datadog/RUM/RUMMonitor/Scopes/RUMResourceScope.swift:41-64 | a new scope has its start attributes, no metrics and no output |
| RUMResourceScope.RUMResourceScope.Process | Sources/Datadog/RUM/RUMMonitor/Scopes/RUMResourceScope.swift:68-82 | the returned flag and the new attributes, metrics and output are `Processed` of the old state |
| RUMResourceScope.RUMResourceScope.AddMetrics | Sources/Datadog/RUM/RUMMonitor/Scopes/RUMResourceScope.swift:84-87 | merges the attributes and stores the metrics; nothing is written |
| RUMResourceScope.RUMResourceScope.SendResourceEvent | Sources/Datadog/RUM/RUMMonitor/Scopes/RUMResourceScope.swift:91-178 | merges the attributes, then writes one resource event with them |
| RUMResourceScope.RUMResourceScope.SendErrorEvent | Sources/Datadog/RUM/RUMMonitor/Scopes/RUMResourceScope.swift:180-215 | merges the attributes, then writes one error event with them |
| SessionReplay.HexDigit | DatadogSessionReplay/Sources/Drafts/SessionReplayFeature.swift:254 | a character is a base-16 digit iff it is 0-9, a-f or A-F; 0-9 are worth 0 to 9, and a-f and A-F are both worth 10 to 15 |
| SessionReplay.Digits | DatadogSessionReplay/Sources/Drafts/SessionReplayFeature.swift:254 | the value of a digit run is below 16 to the power of its length |
| SessionReplay.DigitsDefinedIffHex | DatadogSessionReplay/Sources/Drafts/SessionReplayFeature.swift:254 | a run has a value iff every character is a base-16 digit |
| SessionReplay.ParseHex | DatadogSessionReplay/Sources/Drafts/SessionReplayFeature.swift:254 | rejects the empty string. A leading `+` needs digits after it; a leading `-` is accepted only before zero, giving zero; otherwise it reads the digits |
| SessionReplay.Channels | DatadogSessionReplay/Sources/Drafts/SessionReplayFeature.swift:258-264 | the four channels, bytes 3 to 0 of the value, each lie in 0..255 |
| SessionReplay.ColorFromHex | DatadogSessionReplay/Sources/Drafts/SessionReplayFeature.swift:250-265 | errors in order: wrong length iff not 9 characters, missing prefix iff no `#`, not hexadecimal iff the rest does not parse. Otherwise the colour is the channels of the parsed value |
| SessionReplay.DigitsOfToHex | DatadogSessionReplay/Sources/Drafts/SessionReplayFeature.swift:254 | a number written in `width` hexadecimal digits reads back as itself |
| SessionReplay.DigitsOfConcat | DatadogSessionReplay/Sources/Drafts/SessionReplayFeature.swift:254 | the value of two digit runs side by side is the first shifted past the second, plus the second |
| SessionReplay.FormatRoundTrip | DatadogSessionReplay/Sources/Drafts/SessionReplayFeature.swift:250-265 | every colour with channels in 0..255, written `#RRGGBBAA`, parses back to itself |
| SessionReplay.PlusSignedColor | DatadogSessionReplay/Sources/Drafts/SessionReplayFeature.swift:254 | a `+` may take the place of the top digit: `#+0000001` parses to alpha 1 |
| SessionReplay.MinusSignedZero | DatadogSessionReplay/Sources/Drafts/SessionReplayFeature.swift:254 | `#-0000000` parses, to clear |
| SessionReplay.MinusSignedOne | DatadogSessionReplay/Sources/Drafts/SessionReplayFeature.swift:254 | `#-0000001` is rejected as not hexadecimal |
| SessionReplay.BuildFrameStyle | DatadogSessionReplay/Sources/Drafts/SessionReplayFeature.swift:196-217 | fails iff the border colour or a present background colour is malformed, with the border's parse error when the border is bad and otherwise the background's. Otherwise each field is its override when present: width and colour from the border, background, radius and opacity from the style. The defaults are 0, clear, clear, 0, 1 |
| SessionReplay.HorizontalAlignment | DatadogSessionReplay/Sources/Drafts/SessionReplayFeature.swift:232-237 | left iff leading, center iff center, right iff trailing |
| SessionReplay.VerticalAlignment | DatadogSessionReplay/Sources/Drafts/SessionReplayFeature.swift:238-243 | top iff leading, center iff center, bottom iff trailing |
| SessionReplay.BuildFrameContent | DatadogSessionReplay/Sources/Drafts/SessionReplayFeature.swift:219-247 | fails iff a text style's colour is malformed. Otherwise the text is kept, with colour and size from the style or clear and 8. Each alignment is set iff present in the position, mapped as above |

## Left out

- `DataUploadWorker.swift`, `DataUploadDelay.swift` and `DataUploadConditions.swift` are not part of this model. The worker is modelled on what its tests observe, and the delay formula is `min(current * (1 + rate), max)` up and `max(current * (1 - rate), min)` down. A preset needs a floor under its ceiling, an initial delay between zero and the ceiling, and a change rate strictly between 0 and 1.
- The network is not modelled. Its answer is an arbitrary function of the events and the request's number, so any sequence of answers per request is covered, but one that depends on other state, such as the time or the request context, is not distinguished.
- The dispatch queue, timers and the real concurrency of the worker are not modelled. A tick is one atomic step and a cancel sets a flag that later ticks read.
- `UploadWorker.Ticked`: for a request that cannot be prepared, this model deletes the batch, as the test shows. The delay is pushed back there, as after any failed attempt; no test checks it.
- `UploadWorker.Ticked`: the background task is registered before the upload conditions are read, so a tick refused for its battery level holds one too. The test shows only an admitted tick on an empty directory.
- `UploadWorker.Admits`: only the battery threshold is modelled, as a strict `>`. Charging state, low-power mode and reachability are left out.
- `UploadWorker.Flushed`: a flush deletes every batch whatever the outcome, as the flush test shows with a random upload status. It ignores the upload conditions, the delay and the cancel flag. A flush upload whose request cannot be prepared is deleted and reports nothing; no test checks that case.
- `UploadWorker.CancelledWorkerUploadsNothing`: the lemma excludes flushes, which this model lets upload after a cancel.
- Debug logs and the exact telemetry and log texts are left out. Reports carry the status code, the error and the feature name instead.
- `BatchStorage.BatchDirectory`: this models the test preset in which every write opens a new file and every file is readable. File ages, sizes, encryption and the file system are left out.
- `CappedCollection` is a Swift value type. Copying with separate storage, and `Equatable`, are not modelled; the class is mutated in place.
- `CappedCollection.CappedCollection.RemoveExtraElements` requires a non-empty array when over the cap. With a negative cap Swift's `removeFirst` would trap on an empty array.
- `merge(rumCommandAttributes:)` is not part of this model. It is taken as a union in which the command's attributes win.
- `RUMResourceScope.ResourceEventFor`: times are integers in one unit. Floating-point time, the conversion to milliseconds and nanoseconds, and date correction beyond a fixed server offset are not modelled.
- The scope's context fields (session, view, action, span and trace ids, connectivity, user info), the resource UUID and the event builder's mapping are left out. Events go to an output list.
- `SessionReplay.ColorFromHex`: channels stay integers 0..255; the division by 255 into `CGFloat` is not modelled. A trapping precondition is a `Failure`, and `count` is taken as the number of characters, without grapheme clusters.
- The fonts, colours and alignment defaults of the renderer library belong to that library. Its default alignment is an absent value here.
- `toFrame()`, `debug(wireframes:)`, image rendering and all UIKit drawing are left out.
- `@ReadWriteLock` synchronisation is left out.
- `JSONSerialization`, UTF-8 encoding, `String(describing:)` and the bus's `send(message:else:)` are foreign calls, given as functions.
- `mapRUMContextAttributeKeyToSpanTagName` is not part of this model. `MessageReceivers.MappedTags` requires it to be injective on the present keys, because `Dictionary(uniqueKeysWithValues:)` traps on duplicates.
