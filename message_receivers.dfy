/** The tracer's `ContextMessageReceiver`: keeps a copy of the parts of the
    core context that spans need, refreshed from `.context` bus messages. */
module MessageReceivers {
  import opened Wrappers

  datatype AppState = Active | Inactive | Background | Terminated

  datatype AppStateSnapshot = AppStateSnapshot(state: AppState, date: int)

  /** `AppStateHistory`, carried through unchanged. */
  datatype AppStateHistory = AppStateHistory(initialSnapshot: AppStateSnapshot, snapshots: seq<AppStateSnapshot>, finalDate: int)

  /** A value in a feature's baggage: the RUM `ids` dictionary, whose values
      may be nil, or anything else. */
  datatype BaggageValue = Ids(ids: map<string, Option<string>>) | OtherValue

  /** The part of `DatadogContext` the receiver reads. */
  datatype DatadogContext = DatadogContext(
    applicationStateHistory: AppStateHistory,
    featuresAttributes: map<string, map<string, BaggageValue>>)

  /** `FeatureMessage`: only `.context` matters here. */
  datatype FeatureMessage =
    | Context(context: DatadogContext)
    | Custom(key: string)
    | Error(message: string)
    | Telemetry

  /** `CoreContext`. */
  datatype CoreContext = CoreContext(rum: Option<map<string, Option<string>>>, applicationStateHistory: Option<AppStateHistory>)

  /** `context.featuresAttributes["rum"]?.ids`. */
  function RumIds(context: DatadogContext): (r: Option<map<string, Option<string>>>)
    ensures r.Some? <==>
      "rum" in context.featuresAttributes && "ids" in context.featuresAttributes["rum"]
      && context.featuresAttributes["rum"]["ids"].Ids?
    ensures r.Some? ==> r.value == context.featuresAttributes["rum"]["ids"].ids
  {
    if "rum" in context.featuresAttributes && "ids" in context.featuresAttributes["rum"]
       && context.featuresAttributes["rum"]["ids"].Ids?
    then Some(context.featuresAttributes["rum"]["ids"].ids)
    else None
  }

  /** `compactMapValues { $0 }`: entries with a nil value are dropped, the
      others keep their key and their value. */
  function PresentTags(attributes: map<string, Option<string>>): (r: map<string, string>)
    ensures forall k :: k in r <==> k in attributes && attributes[k].Some?
    ensures forall k :: k in r ==> attributes[k] == Some(r[k])
  {
    map k | k in attributes && attributes[k].Some? :: attributes[k].value
  }

  /** `keyMap` sends no two of `keys` to the same name. */
  ghost predicate InjectiveOn(keyMap: string -> string, keys: set<string>) {
    forall k1, k2 :: k1 in keys && k2 in keys && keyMap(k1) == keyMap(k2) ==> k1 == k2
  }

  /** `Dictionary(uniqueKeysWithValues: tags.map { (keyMap($0), $1) })`,
      which traps when two keys map to the same name. Every original key
      reappears under its mapped name with its value, and nothing else does. */
  ghost function MappedTags(tags: map<string, string>, keyMap: string -> string): (r: map<string, string>)
    requires InjectiveOn(keyMap, tags.Keys)
    ensures r.Keys == set k | k in tags :: keyMap(k)
    ensures forall k :: k in tags ==> keyMap(k) in r && r[keyMap(k)] == tags[k]
    ensures |r| == |tags|
  {
    var r := map t | t in MappedNames(tags, keyMap) :: tags[Origin(tags, keyMap, t)];
    OriginOfMappedKey(tags, keyMap);
    MappedSize(tags, keyMap, r);
    r
  }

  ghost function MappedNames(tags: map<string, string>, keyMap: string -> string): set<string> {
    set k | k in tags :: keyMap(k)
  }

  /** The original key behind a mapped name. */
  ghost function Origin(tags: map<string, string>, keyMap: string -> string, t: string): (k: string)
    requires t in MappedNames(tags, keyMap)
    ensures k in tags && keyMap(k) == t
  {
    var k :| k in tags && keyMap(k) == t; k
  }

  lemma OriginOfMappedKey(tags: map<string, string>, keyMap: string -> string)
    requires InjectiveOn(keyMap, tags.Keys)
    ensures forall k :: k in tags ==> keyMap(k) in MappedNames(tags, keyMap) && Origin(tags, keyMap, keyMap(k)) == k
  {
    forall k | k in tags
      ensures keyMap(k) in MappedNames(tags, keyMap) && Origin(tags, keyMap, keyMap(k)) == k
    {
      assert keyMap(k) in MappedNames(tags, keyMap);
    }
  }

  lemma MappedSize(tags: map<string, string>, keyMap: string -> string, r: map<string, string>)
    requires InjectiveOn(keyMap, tags.Keys)
    requires r.Keys == set k | k in tags :: keyMap(k)
    ensures |r| == |tags|
  {
    InjectiveImageSize(tags.Keys, keyMap);
  }

  lemma {:induction false} InjectiveImageSize(keys: set<string>, keyMap: string -> string)
    requires InjectiveOn(keyMap, keys)
    ensures |set k | k in keys :: keyMap(k)| == |keys|
    decreases |keys|
  {
    if keys != {} {
      var k0 :| k0 in keys;
      var rest := keys - {k0};
      InjectiveImageSize(rest, keyMap);
      var image := set k | k in keys :: keyMap(k);
      var restImage := set k | k in rest :: keyMap(k);
      assert image == restImage + {keyMap(k0)};
      assert keyMap(k0) !in restImage;
    }
  }

  /** `[String: String]` stored into `[String: String?]`. */
  function Wrapped(tags: map<string, string>): (r: map<string, Option<string>>)
    ensures r.Keys == tags.Keys
    ensures forall k :: k in tags ==> r[k] == Some(tags[k])
  {
    map k | k in tags :: Some(tags[k])
  }

  /** What `update(context:)` needs of the key mapping. */
  ghost predicate CanUpdate(bundleWithRumEnabled: bool, keyMap: string -> string, incoming: DatadogContext) {
    bundleWithRumEnabled && RumIds(incoming).Some? ==> InjectiveOn(keyMap, PresentTags(RumIds(incoming).value).Keys)
  }

  /** The stored context after `update(context:)`: the app-state history is
      always the incoming one; the RUM tags are replaced only when bundling
      with RUM is on and the incoming context carries RUM ids. */
  ghost function Updated(stored: CoreContext, incoming: DatadogContext, bundleWithRumEnabled: bool, keyMap: string -> string): (r: CoreContext)
    requires CanUpdate(bundleWithRumEnabled, keyMap, incoming)
    ensures r.applicationStateHistory == Some(incoming.applicationStateHistory)
    ensures !(bundleWithRumEnabled && RumIds(incoming).Some?) ==> r.rum == stored.rum
    ensures bundleWithRumEnabled && RumIds(incoming).Some? ==>
      && r.rum.Some?
      && (forall t :: t in r.rum.value ==> r.rum.value[t].Some?)
      && (forall k :: k in RumIds(incoming).value && RumIds(incoming).value[k].Some? ==>
            keyMap(k) in r.rum.value && r.rum.value[keyMap(k)] == RumIds(incoming).value[k])
      && (forall t :: t in r.rum.value ==>
            exists k :: k in RumIds(incoming).value && RumIds(incoming).value[k].Some? && keyMap(k) == t)
  {
    var withHistory := stored.(applicationStateHistory := Some(incoming.applicationStateHistory));
    if bundleWithRumEnabled && RumIds(incoming).Some? then
      withHistory.(rum := Some(Wrapped(MappedTags(PresentTags(RumIds(incoming).value), keyMap))))
    else
      withHistory
  }

  class ContextMessageReceiver {
    const bundleWithRumEnabled: bool
    /** `mapRUMContextAttributeKeyToSpanTagName`, which is not part of this model. */
    const keyMap: string -> string
    var context: CoreContext

    constructor (bundleWithRumEnabled: bool, keyMap: string -> string)
      ensures this.bundleWithRumEnabled == bundleWithRumEnabled && this.keyMap == keyMap
      ensures context == CoreContext(None, None)
    {
      this.bundleWithRumEnabled := bundleWithRumEnabled;
      this.keyMap := keyMap;
      context := CoreContext(None, None);
    }

    /** `receive(message:from:)`: only `.context` is taken, and taking it
        updates the stored context. */
    method Receive(message: FeatureMessage) returns (accepted: bool)
      requires message.Context? ==> CanUpdate(bundleWithRumEnabled, keyMap, message.context)
      modifies this
      ensures accepted <==> message.Context?
      ensures message.Context? ==> context == Updated(old(context), message.context, bundleWithRumEnabled, keyMap)
      ensures !message.Context? ==> context == old(context)
    {
      match message {
        case Context(incoming) =>
          accepted := Update(incoming);
        case _ =>
          accepted := false;
      }
    }

    method Update(incoming: DatadogContext) returns (accepted: bool)
      requires CanUpdate(bundleWithRumEnabled, keyMap, incoming)
      modifies this
      ensures accepted
      ensures context == Updated(old(context), incoming, bundleWithRumEnabled, keyMap)
    {
      context := context.(applicationStateHistory := Some(incoming.applicationStateHistory));
      var ids := RumIds(incoming);
      if bundleWithRumEnabled && ids.Some? {
        var tags := PresentTags(ids.value);
        var pending := tags.Keys;
        var mapped: map<string, string> := map[];
        while pending != {}
          invariant pending <= tags.Keys
          invariant mapped.Keys == set k | k in tags.Keys - pending :: keyMap(k)
          invariant forall k :: k in tags.Keys - pending ==> mapped[keyMap(k)] == tags[k]
          decreases pending
        {
          var k :| k in pending;
          mapped := mapped[keyMap(k) := tags[k]];
          pending := pending - {k};
        }
        assert mapped == MappedTags(tags, keyMap);
        context := context.(rum := Some(Wrapped(mapped)));
      }
      accepted := true;
    }
  }
}
