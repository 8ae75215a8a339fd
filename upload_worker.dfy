/** `DataUploadWorker`: the scheduler that drains the batch directory.
    Each tick checks the upload conditions, reads the oldest batch, uploads
    it inside a background task, then deletes or keeps the batch and moves the
    delay according to the outcome. `flushSynchronously` drains everything at
    once; `cancelSynchronously` stops the scheduled ticks. */
module UploadWorker {
  import opened Wrappers
  import opened UploadDelay
  import opened BatchStorage

  // ---------------------------------------------------------------------
  // Collaborators' vocabulary

  /** `DataUploadError`: why an upload was not accepted. */
  datatype UploadError = Unauthorized | HttpError(statusCode: int) | NetworkError(description: string)

  /** `DataUploadStatus`, reduced to what the worker reads. */
  datatype UploadStatus = UploadStatus(needsRetry: bool, error: Option<UploadError>)

  /** One call to `DataUploader.upload(events:context:)`: it returns a
      status, or throws while preparing the request. */
  datatype UploadOutcome = Completed(status: UploadStatus) | Thrown(message: string)

  /** `DataUploadConditions`, reduced to its battery threshold. */
  datatype UploadConditions = UploadConditions(minBatteryLevel: real)

  /** The battery part of `blockersForUpload`: the level must exceed the threshold. */
  predicate Admits(conditions: UploadConditions, batteryLevel: real) {
    batteryLevel > conditions.minBatteryLevel
  }

  /** The battery gate is strict and monotone: a level equal to the
      threshold is refused, and a level admitted stays admitted as the
      battery charges. */
  lemma BatteryGateIsStrict(conditions: UploadConditions, level: real, higher: real)
    ensures !Admits(conditions, conditions.minBatteryLevel)
    ensures Admits(conditions, level) && level <= higher ==> Admits(conditions, higher)
    ensures Admits(conditions, level) <==> conditions.minBatteryLevel < level
  {
  }

  /** The tests' `alwaysUpload()`: a threshold of 0 admits every charged battery. */
  function AlwaysUpload(): (c: UploadConditions)
    ensures forall level :: 0.0 < level ==> Admits(c, level)
  {
    UploadConditions(0.0)
  }

  /** The tests' `neverUpload()`: a threshold of 1 admits no battery level. */
  function NeverUpload(): (c: UploadConditions)
    ensures forall level :: level <= 1.0 ==> !Admits(c, level)
  {
    UploadConditions(1.0)
  }

  /** What the background-task coordinator sees: a registration, answered
      with an identifier or nil, and the end of an identified task. */
  datatype TaskEvent = Registered(id: Option<int>) | Ended(ended: int)

  /** What a tick reports besides debug logs: the user-facing warning for
      an unauthorized upload and the error telemetry of failed ones. */
  datatype Report =
    | UnauthorizedWarning
    | StatusCodeTelemetry(statusCode: int)
    | NetworkErrorTelemetry(description: string)
    | InitiationFailureTelemetry(featureName: string, message: string)

  /** The reports that one returned status produces. */
  function StatusReports(status: UploadStatus): (r: seq<Report>)
    ensures |r| <= 1
    ensures r == [] <==> status.error.None?
    ensures status.error == Some(Unauthorized) <==> r == [UnauthorizedWarning]
    ensures forall code :: status.error == Some(HttpError(code)) <==> r == [StatusCodeTelemetry(code)]
    ensures forall d :: status.error == Some(NetworkError(d)) <==> r == [NetworkErrorTelemetry(d)]
  {
    match status.error
    case None => []
    case Some(Unauthorized) => [UnauthorizedWarning]
    case Some(HttpError(code)) => [StatusCodeTelemetry(code)]
    case Some(NetworkError(d)) => [NetworkErrorTelemetry(d)]
  }

  /** The background-task events of one upload attempt: register first,
      and end the task after the upload when an identifier was granted. */
  function TaskSpan(id: Option<int>): (r: seq<TaskEvent>)
    ensures r != [] && r[0] == Registered(id)
    ensures id.Some? ==> r == [Registered(id), Ended(id.value)]
    ensures id.None? ==> r == [Registered(None)]
  {
    [Registered(id)] + (if id.Some? then [Ended(id.value)] else [])
  }

  /** Every granted background task is ended right after its registration:
      no task is left running between ticks. */
  predicate Balanced(tasks: seq<TaskEvent>)
    decreases |tasks|
  {
    if tasks == [] then true
    else if tasks[0] == Registered(None) then Balanced(tasks[1..])
    else if |tasks| >= 2 && tasks[0].Registered? && tasks[0].id.Some? && tasks[1] == Ended(tasks[0].id.value)
    then Balanced(tasks[2..])
    else false
  }

  lemma {:induction false} BalancedAppendSpan(tasks: seq<TaskEvent>, id: Option<int>)
    requires Balanced(tasks)
    ensures Balanced(tasks + TaskSpan(id))
    decreases |tasks|
  {
    var span := TaskSpan(id);
    if tasks == [] {
      assert tasks + span == span;
      if id.None? {
        assert span[1..] == [];
      } else {
        assert span[2..] == [];
      }
    } else if tasks[0] == Registered(None) {
      BalancedAppendSpan(tasks[1..], id);
      assert (tasks + span)[1..] == tasks[1..] + span;
    } else {
      BalancedAppendSpan(tasks[2..], id);
      assert (tasks + span)[2..] == tasks[2..] + span;
    }
  }

  // ---------------------------------------------------------------------
  // The worker as a state machine

  /** What the network answers: the outcome of uploading `events` as the
      request numbered `attempt` (counting every request the worker has made
      before it). The same batch may get a different answer on a later
      attempt, as a transient server error followed by an acceptance. */
  type Uploader = (seq<Event>, nat) -> UploadOutcome

  /** What the worker is built with. */
  datatype Config = Config(
    performance: Performance,
    conditions: UploadConditions,
    upload: Uploader,
    featureName: string)

  /** Everything a tick can change: the directory, the delay, the upload
      requests made so far (one event list per call), the background-task
      events, the reports, and whether the worker was cancelled. */
  datatype WorkerState = WorkerState(
    files: seq<Batch>,
    delay: real,
    requests: seq<seq<Event>>,
    tasks: seq<TaskEvent>,
    reports: seq<Report>,
    cancelled: bool)

  /** A tick that reaches the uploader: not cancelled, admitted, and a batch to read. */
  predicate Attempts(c: Config, batteryLevel: real, s: WorkerState) {
    !s.cancelled && Admits(c.conditions, batteryLevel) && s.files != []
  }

  /** The answer to the request an attempting tick makes for the oldest batch. */
  function Outcome(c: Config, s: WorkerState): UploadOutcome
    requires s.files != []
  {
    c.upload(s.files[0].events, |s.requests|)
  }

  /** One scheduled tick, given the battery level it reads and the answer
      of the background-task coordinator. Every tick of a running worker
      holds one background task, whether or not it finds a batch to upload. */
  function Ticked(c: Config, batteryLevel: real, taskId: Option<int>, s: WorkerState): (t: WorkerState)
    ensures t.cancelled == s.cancelled
    // a cancelled worker does nothing
    ensures s.cancelled ==> t == s
    // a running worker registers a background task and ends a granted one
    ensures !s.cancelled ==> t.tasks == s.tasks + TaskSpan(taskId)
    // nothing to upload, or not allowed to: besides the task, only the delay moves, upwards
    ensures !s.cancelled && !Attempts(c, batteryLevel, s) ==>
      t == s.(delay := Increased(c.performance, s.delay), tasks := s.tasks + TaskSpan(taskId))
    // an attempt uploads the oldest batch
    ensures Attempts(c, batteryLevel, s) ==> t.requests == s.requests + [s.files[0].events]
    // accepted: the batch is deleted and the delay released
    ensures (Attempts(c, batteryLevel, s) && Outcome(c, s).Completed?
             && !Outcome(c, s).status.needsRetry) ==>
      && t.files == s.files[1..]
      && t.delay == Decreased(c.performance, s.delay)
      && t.reports == s.reports + StatusReports(Outcome(c, s).status)
    // needs retry: the batch is kept and the delay pushed back
    ensures (Attempts(c, batteryLevel, s) && Outcome(c, s).Completed?
             && Outcome(c, s).status.needsRetry) ==>
      && t.files == s.files
      && t.delay == Increased(c.performance, s.delay)
      && t.reports == s.reports + StatusReports(Outcome(c, s).status)
    // the request could not be prepared: the batch is deleted anyway
    ensures Attempts(c, batteryLevel, s) && Outcome(c, s).Thrown? ==>
      && t.files == s.files[1..]
      && t.delay == Increased(c.performance, s.delay)
      && t.reports == s.reports + [InitiationFailureTelemetry(c.featureName, Outcome(c, s).message)]
  {
    if s.cancelled then s
    else
      var held := s.(tasks := s.tasks + TaskSpan(taskId));
      if !Admits(c.conditions, batteryLevel) || s.files == [] then
        held.(delay := Increased(c.performance, s.delay))
      else
        var batch := s.files[0];
        var attempted := held.(requests := s.requests + [batch.events]);
        match c.upload(batch.events, |s.requests|)
        case Thrown(message) =>
          attempted.(files := s.files[1..], delay := Increased(c.performance, s.delay),
                     reports := s.reports + [InitiationFailureTelemetry(c.featureName, message)])
        case Completed(status) =>
          if status.needsRetry then
            attempted.(delay := Increased(c.performance, s.delay), reports := s.reports + StatusReports(status))
          else
            attempted.(files := s.files[1..], delay := Decreased(c.performance, s.delay),
                       reports := s.reports + StatusReports(status))
  }

  /** The event lists of `files`, one per file, oldest first. */
  function Requests(files: seq<Batch>): (r: seq<seq<Event>>)
    ensures |r| == |files|
    ensures forall i :: 0 <= i < |files| ==> r[i] == files[i].events
  {
    seq(|files|, i requires 0 <= i < |files| => files[i].events)
  }

  lemma ConcatAssoc<T>(a: seq<T>, b: seq<T>, c: seq<T>)
    ensures (a + b) + c == a + (b + c)
  {
  }

  lemma RequestsOfNonEmpty(files: seq<Batch>)
    requires files != []
    ensures Requests(files) == [files[0].events] + Requests(files[1..])
  {
  }

  /** `flushSynchronously()`: every batch is uploaded, oldest first, and
      deleted whatever the outcome; conditions, delay and cancellation are
      not consulted. */
  function Flushed(c: Config, s: WorkerState): (t: WorkerState)
    ensures t.files == []
    ensures t.requests == s.requests + Requests(s.files)
    ensures t.delay == s.delay && t.tasks == s.tasks && t.reports == s.reports && t.cancelled == s.cancelled
    decreases |s.files|
  {
    if s.files == [] then
      s
    else
      RequestsOfNonEmpty(s.files);
      ConcatAssoc(s.requests, [s.files[0].events], Requests(s.files[1..]));
      Flushed(c, s.(files := s.files[1..], requests := s.requests + [s.files[0].events]))
  }

  /** The things that can happen to a worker and its directory. */
  datatype Step =
    | WriteStep(event: Event)
    | TickStep(batteryLevel: real, taskId: Option<int>)
    | FlushStep
    | CancelStep

  function Apply(c: Config, step: Step, s: WorkerState): WorkerState {
    match step
    case WriteStep(e) => s.(files := s.files + [Batch([e])])
    case TickStep(level, id) => Ticked(c, level, id, s)
    case FlushStep => Flushed(c, s)
    case CancelStep => s.(cancelled := true)
  }

  function Run(c: Config, steps: seq<Step>, s: WorkerState): WorkerState
    decreases |steps|
  {
    if steps == [] then s else Run(c, steps[1..], Apply(c, steps[0], s))
  }

  /** `n` ticks in a row at one battery level. */
  function Ticks(c: Config, batteryLevel: real, taskId: Option<int>, n: nat, s: WorkerState): WorkerState
    decreases n
  {
    if n == 0 then s else Ticks(c, batteryLevel, taskId, n - 1, Ticked(c, batteryLevel, taskId, s))
  }

  /** The batches that the write steps of `steps` add, in order. */
  function Written(steps: seq<Step>): seq<Batch>
    decreases |steps|
  {
    if steps == [] then []
    else WrittenBy(steps[0]) + Written(steps[1..])
  }

  // ---------------------------------------------------------------------
  // Properties over many steps

  ghost predicate AlwaysAccepts(c: Config) {
    forall events, attempt :: c.upload(events, attempt).Completed? && !c.upload(events, attempt).status.needsRetry
  }

  ghost predicate AlwaysRetries(c: Config) {
    forall events, attempt :: c.upload(events, attempt).Completed? && c.upload(events, attempt).status.needsRetry
  }

  predicate DelayInBounds(p: Performance, s: WorkerState) {
    p.minUploadDelay <= s.delay <= p.maxUploadDelay
  }

  /** With an uploader that always accepts, as many ticks as there are
      batches upload every batch once, oldest first, and leave the directory
      empty. */
  lemma {:induction false} AcceptingTicksDrainInOrder(c: Config, level: real, taskId: Option<int>, s: WorkerState)
    requires AlwaysAccepts(c) && Admits(c.conditions, level) && !s.cancelled
    ensures var t := Ticks(c, level, taskId, |s.files|, s);
      t.files == [] && t.requests == s.requests + Requests(s.files)
    decreases |s.files|
  {
    if s.files == [] {
      assert s.requests + Requests(s.files) == s.requests;
    } else {
      var outcome := Outcome(c, s);
      assert outcome.Completed? && !outcome.status.needsRetry;
      var s' := Ticked(c, level, taskId, s);
      assert s'.files == s.files[1..] && s'.requests == s.requests + [s.files[0].events] && !s'.cancelled;
      assert Ticks(c, level, taskId, |s.files|, s) == Ticks(c, level, taskId, |s'.files|, s');
      AcceptingTicksDrainInOrder(c, level, taskId, s');
      RequestsOfNonEmpty(s.files);
      ConcatAssoc(s.requests, [s.files[0].events], Requests(s.files[1..]));
    }
  }

  /** The tests' first scenario: three writes into an empty directory, then
      three ticks with an accepting uploader, give three requests carrying
      the three events in write order and no file left. */
  lemma ThreeWritesAreUploadedInOrder(c: Config, level: real, taskId: Option<int>, s: WorkerState, e1: Event, e2: Event, e3: Event)
    requires AlwaysAccepts(c) && Admits(c.conditions, level) && !s.cancelled
    requires s.files == [] && s.requests == []
    ensures var written := Run(c, [WriteStep(e1), WriteStep(e2), WriteStep(e3)], s);
      var t := Ticks(c, level, taskId, 3, written);
      t.requests == [[e1], [e2], [e3]] && t.files == []
  {
    var steps := [WriteStep(e1), WriteStep(e2), WriteStep(e3)];
    var s1 := Apply(c, steps[0], s);
    var s2 := Apply(c, steps[1], s1);
    var s3 := Apply(c, steps[2], s2);
    assert Run(c, steps, s) == Run(c, steps[1..], s1);
    assert Run(c, steps[1..], s1) == Run(c, steps[2..], s2);
    assert Run(c, steps[2..], s2) == Run(c, [], s3);
    var written := s3;
    assert written.files == [Batch([e1]), Batch([e2]), Batch([e3])];
    AcceptingTicksDrainInOrder(c, level, taskId, written);
    assert Requests(written.files) == [[e1], [e2], [e3]];
  }

  /** The background-task test: a fresh worker with `alwaysUpload()` and an
      empty directory still registers a background task on its first tick,
      and ends the identifier the coordinator granted; nothing is uploaded. */
  lemma EmptyTickHoldsBackgroundTask(c: Config, level: real, id: int, s: WorkerState)
    requires c.conditions == AlwaysUpload() && 0.0 < level
    requires s.files == [] && s.requests == [] && s.tasks == [] && !s.cancelled
    ensures var t := Ticked(c, level, Some(id), s);
      t.tasks == [Registered(Some(id)), Ended(id)] && t.requests == [] && t.files == []
  {
  }

  /** The delay tests: from a delay strictly inside the bounds, a tick that
      finds no batch or is not admitted, and a tick whose upload needs a
      retry, leave the delay higher; an accepted upload leaves it lower. */
  lemma TickMovesDelay(c: Config, level: real, taskId: Option<int>, s: WorkerState)
    requires ValidPerformance(c.performance) && !s.cancelled
    requires c.performance.minUploadDelay < s.delay < c.performance.maxUploadDelay
    ensures var t := Ticked(c, level, taskId, s);
      && (!Attempts(c, level, s) ==> t.delay > s.delay)
      && (Attempts(c, level, s) && Outcome(c, s).Completed? ==>
            (Outcome(c, s).status.needsRetry <==> t.delay > s.delay)
            && (!Outcome(c, s).status.needsRetry <==> t.delay < s.delay))
  {
  }

  /** With an uploader that always asks for a retry, no number of ticks
      loses a batch, and the delay never goes down. */
  lemma {:induction false} RetryingTicksKeepEveryBatch(c: Config, level: real, taskId: Option<int>, n: nat, s: WorkerState)
    requires AlwaysRetries(c) && 0.0 <= c.performance.uploadDelayChangeRate
    requires 0.0 <= s.delay <= c.performance.maxUploadDelay
    ensures var t := Ticks(c, level, taskId, n, s);
      t.files == s.files && s.delay <= t.delay <= c.performance.maxUploadDelay
    decreases n
  {
    if n > 0 {
      RetryingTicksKeepEveryBatch(c, level, taskId, n - 1, Ticked(c, level, taskId, s));
    }
  }

  /** A retry keeps the batch for a later tick: when the server asks for a
      retry and then accepts, two ticks upload the oldest batch twice, the
      second time successfully, and delete it. */
  lemma RetriedBatchIsLaterAccepted(c: Config, level: real, id1: Option<int>, id2: Option<int>, s: WorkerState)
    requires Admits(c.conditions, level) && !s.cancelled && s.files != []
    requires c.upload(s.files[0].events, |s.requests|).Completed?
    requires c.upload(s.files[0].events, |s.requests|).status.needsRetry
    requires c.upload(s.files[0].events, |s.requests| + 1).Completed?
    requires !c.upload(s.files[0].events, |s.requests| + 1).status.needsRetry
    ensures var t := Ticked(c, level, id2, Ticked(c, level, id1, s));
      && t.files == s.files[1..]
      && t.requests == s.requests + [s.files[0].events, s.files[0].events]
  {
    var s1 := Ticked(c, level, id1, s);
    assert s1.files == s.files && |s1.requests| == |s.requests| + 1;
    assert Outcome(c, s1) == c.upload(s.files[0].events, |s.requests| + 1);
  }

  /** After `cancelSynchronously`, writes and scheduled ticks make no upload
      request and register no background task. */
  lemma {:induction false} CancelledWorkerUploadsNothing(c: Config, steps: seq<Step>, s: WorkerState)
    requires s.cancelled
    requires forall i :: 0 <= i < |steps| ==> !steps[i].FlushStep?
    ensures var t := Run(c, steps, s);
      t.requests == s.requests && t.tasks == s.tasks && t.delay == s.delay && t.cancelled
    decreases |steps|
  {
    if steps != [] {
      CancelledWorkerUploadsNothing(c, steps[1..], Apply(c, steps[0], s));
    }
  }

  /** Whatever happens, the delay stays within the preset's bounds. */
  lemma {:induction false} RunKeepsDelayInBounds(c: Config, steps: seq<Step>, s: WorkerState)
    requires ValidPerformance(c.performance) && DelayInBounds(c.performance, s)
    ensures DelayInBounds(c.performance, Run(c, steps, s))
    decreases |steps|
  {
    if steps != [] {
      MovesStayInBounds(c.performance, s.delay);
      RunKeepsDelayInBounds(c, steps[1..], Apply(c, steps[0], s));
    }
  }

  /** Whatever happens, a delay that starts between zero and the ceiling,
      as a fresh one from a quick-first-upload preset may, stays there. */
  lemma {:induction false} RunKeepsDelayUnderCeiling(c: Config, steps: seq<Step>, s: WorkerState)
    requires ValidPerformance(c.performance) && 0.0 <= s.delay <= c.performance.maxUploadDelay
    ensures 0.0 <= Run(c, steps, s).delay <= c.performance.maxUploadDelay
    decreases |steps|
  {
    if steps != [] {
      MovesStayUnderCeiling(c.performance, s.delay);
      RunKeepsDelayUnderCeiling(c, steps[1..], Apply(c, steps[0], s));
    }
  }

  /** Whatever happens, every background task a tick registers is ended
      before the tick returns. */
  lemma {:induction false} RunKeepsTasksBalanced(c: Config, steps: seq<Step>, s: WorkerState)
    requires Balanced(s.tasks)
    ensures Balanced(Run(c, steps, s).tasks)
    decreases |steps|
  {
    if steps != [] {
      var s' := Apply(c, steps[0], s);
      if steps[0].TickStep? && !s.cancelled {
        BalancedAppendSpan(s.tasks, steps[0].taskId);
      }
      RunKeepsTasksBalanced(c, steps[1..], s');
    }
  }

  /** The batch a step writes, if it is a write. */
  function WrittenBy(step: Step): seq<Batch> {
    if step.WriteStep? then [Batch([step.event])] else []
  }

  /** One step removes some of the oldest batches and appends what it writes. */
  lemma ApplyDeletesOnlyOldest(c: Config, step: Step, s: WorkerState) returns (d: nat)
    ensures d <= |s.files|
    ensures Apply(c, step, s).files == s.files[d..] + WrittenBy(step)
  {
    match step
    case WriteStep(e) => d := 0;
    case TickStep(level, id) =>
      d := if Ticked(c, level, id, s).files == s.files then 0 else 1;
    case FlushStep => d := |s.files|;
    case CancelStep => d := 0;
  }

  /** FIFO: batches only ever leave from the oldest end, so the directory
      is always a suffix of what it held plus what was written since. */
  lemma {:induction false} RunDeletesOnlyOldest(c: Config, steps: seq<Step>, s: WorkerState) returns (k: nat)
    ensures k <= |s.files + Written(steps)|
    ensures Run(c, steps, s).files == (s.files + Written(steps))[k..]
    decreases |steps|
  {
    if steps == [] {
      k := 0;
      assert s.files + Written(steps) == s.files;
    } else {
      var s' := Apply(c, steps[0], s);
      var d := ApplyDeletesOnlyOldest(c, steps[0], s);
      var j := RunDeletesOnlyOldest(c, steps[1..], s');
      assert Written(steps) == WrittenBy(steps[0]) + Written(steps[1..]);
      assert s'.files + Written(steps[1..]) == (s.files + Written(steps))[d..];
      k := d + j;
    }
  }

  // ---------------------------------------------------------------------
  // The worker object

  class DataUploadWorker {
    const store: BatchDirectory
    const delay: DataUploadDelay
    const conditions: UploadConditions
    const upload: Uploader
    const featureName: string

    /** What reached the uploader: one event list per call. */
    var requests: seq<seq<Event>>
    /** What the background-task coordinator was asked. */
    var tasks: seq<TaskEvent>
    /** The user-facing warnings and error telemetry sent. */
    var reports: seq<Report>
    var cancelled: bool

    ghost predicate Valid()
      reads this, delay
    {
      delay.Valid()
    }

    function Cfg(): Config {
      Config(delay.performance, conditions, upload, featureName)
    }

    ghost function State(): WorkerState
      reads this, store, delay
    {
      WorkerState(store.files, delay.current, requests, tasks, reports, cancelled)
    }

    constructor (store: BatchDirectory, delay: DataUploadDelay, conditions: UploadConditions,
                 upload: Uploader, featureName: string)
      requires delay.Valid()
      ensures Valid()
      ensures this.store == store && this.delay == delay && this.conditions == conditions
      ensures this.upload == upload && this.featureName == featureName
      ensures requests == [] && tasks == [] && reports == [] && !cancelled
    {
      this.store := store;
      this.delay := delay;
      this.conditions := conditions;
      this.upload := upload;
      this.featureName := featureName;
      requests, tasks, reports, cancelled := [], [], [], false;
    }

    /** One scheduled tick. */
    method Tick(batteryLevel: real, taskId: Option<int>)
      requires Valid()
      modifies this, store, delay
      ensures Valid()
      ensures State() == Ticked(Cfg(), batteryLevel, taskId, old(State()))
    {
      if cancelled {
        return;
      }
      tasks := tasks + [Registered(taskId)];
      var next: Option<Batch> := None;
      if Admits(conditions, batteryLevel) {
        next := store.ReadNextBatch();
      }
      if next.None? {
        delay.Increase();
      } else {
        var batch := next.value;
        var outcome := upload(batch.events, |requests|);
        requests := requests + [batch.events];
        match outcome {
          case Thrown(message) =>
            store.DeleteOldest();
            reports := reports + [InitiationFailureTelemetry(featureName, message)];
            delay.Increase();
          case Completed(status) =>
            if status.needsRetry {
              delay.Increase();
            } else {
              store.DeleteOldest();
              delay.Decrease();
            }
            reports := reports + StatusReports(status);
        }
      }
      if taskId.Some? {
        tasks := tasks + [Ended(taskId.value)];
      }
    }

    method FlushSynchronously()
      requires Valid()
      modifies this, store
      ensures Valid()
      ensures State() == Flushed(Cfg(), old(State()))
    {
      var next := store.ReadNextBatch();
      while next.Some?
        invariant Valid()
        invariant next.Some? <==> store.files != []
        invariant next.Some? ==> next.value == store.files[0]
        invariant Flushed(Cfg(), State()) == Flushed(Cfg(), old(State()))
        decreases |store.files|
      {
        requests := requests + [next.value.events];
        store.DeleteOldest();
        next := store.ReadNextBatch();
      }
    }

    method CancelSynchronously()
      modifies this
      ensures State() == old(State()).(cancelled := true)
    {
      cancelled := true;
    }
  }
}
