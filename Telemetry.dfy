/** RollbarTelemetry.h: the application-wide store of recent telemetry events. Events
    are kept oldest first, at most `dataLimit` of them; recording is switched on and off
    by `enabled`, and view events can have named inputs scrubbed. */
module Telemetry {
  import opened Wrappers
  import opened DtoBase

  // ---------------------------------------------------------------------------
  // Events and their bodies.

  /** A RollbarLevel, carried by its ordinal (its enumerators are not part of this
      model). */
  datatype Level = Level(code: nat)

  /** A RollbarSource, carried by its ordinal. */
  datatype Source = Source(code: nat)

  /** The source given to events recorded without one: the enumeration's first value. */
  const DefaultSource: Source := Source(0)

  /** The kinds of telemetry event, one per recording helper. */
  datatype TelemetryType =
    | LogType | ViewType | ErrorType | NavigationType | NetworkType | ConnectivityType | ManualType

  /** An event body: its kind and its JSON-shaped fields. */
  datatype Body = Body(kind: TelemetryType, fields: map<string, Value>)

  /** A telemetry event: level, source and body. */
  datatype Event = Event(level: Level, source: Source, body: Body)

  const MessageKey: string := "message"
  const ElementKey: string := "element"
  const MethodKey: string := "method"
  const UrlKey: string := "url"
  const StatusCodeKey: string := "statusCode"
  const StatusKey: string := "status"
  const FromKey: string := "from"
  const ToKey: string := "to"

  /** What a scrubbed view input is replaced with. */
  const ScrubbedMarker: string := "[scrubbed]"

  /** The fields each kind of body requires, as strings. */
  function RequiredFields(kind: TelemetryType): set<string> {
    match kind
    case LogType => {MessageKey}
    case ViewType => {ElementKey}
    case ErrorType => {MessageKey}
    case NavigationType => {FromKey, ToKey}
    case NetworkType => {MethodKey, UrlKey, StatusCodeKey}
    case ConnectivityType => {StatusKey}
    case ManualType => {}
  }

  /** The body's fields fit its kind. */
  predicate ShapeOk(b: Body) {
    forall k | k in RequiredFields(b.kind) :: k in b.fields && b.fields[k].Str?
  }

  /** Every field of the body is a transferable data value, as in any DTO. */
  predicate BodyTransferable(b: Body) {
    forall k | k in b.fields :: IsTransferableDataValue(b.fields[k])
  }

  /** A body is a dictionary-rooted DTO: its fields are transferable exactly when the
      DTO holding them is well formed. */
  lemma BodyIsDto(b: Body)
    ensures BodyTransferable(b) <==> WellFormed(Dto(Some(b.fields), None))
  {
  }

  /** Caller-supplied extra data, sanitised field by field: fields whose values are not
      transferable are dropped, the others kept as they are; nil gives no fields. */
  function Sanitize(extra: Option<map<string, Value>>): map<string, Value> {
    if extra.None? then map[]
    else map k | k in extra.value && IsTransferableDataValue(extra.value[k]) :: extra.value[k]
  }

  /** The body carries the caller's extra data, sanitised: outside the helper's own
      `named` keys, every field is an extra-data field kept unchanged, and an extra-data
      field is kept exactly when its value is transferable. */
  predicate CarriesExtra(b: Body, extra: Option<map<string, Value>>, named: set<string>) {
    && (forall k | k in b.fields && k !in named ::
          extra.Some? && k in extra.value && b.fields[k] == extra.value[k])
    && (extra.Some? ==> forall k | k in extra.value && k !in named ::
          (k in b.fields <==> IsTransferableDataValue(extra.value[k])))
  }

  /** The body of kind `kind` with the helper's own string arguments under their names,
      over the sanitised extra data: every field is transferable, each named argument is
      stored as given, and every other field is an extra-data field kept unchanged, each
      transferable extra-data field being kept. */
  function MakeBody(kind: TelemetryType, named: map<string, string>, extra: Option<map<string, Value>>): (b: Body)
    ensures b.kind == kind
    ensures BodyTransferable(b)
    ensures forall k | k in named :: k in b.fields && b.fields[k] == Str(named[k])
    ensures b.fields.Keys == named.Keys + Sanitize(extra).Keys
    ensures CarriesExtra(b, extra, named.Keys)
  {
    Body(kind, Sanitize(extra) + map k | k in named :: Str(named[k]))
  }

  /** The view inputs with the named ones replaced by the scrubbed marker. */
  function ScrubInputs(extra: map<string, Value>, toScrub: set<string>): map<string, Value> {
    map k | k in extra :: if k in toScrub then Str(ScrubbedMarker) else extra[k]
  }

  /** The body recordLogEventForLevel builds. */
  function LogBody(message: string, extra: Option<map<string, Value>>): (b: Body)
    ensures b.kind == LogType && ShapeOk(b) && BodyTransferable(b)
    ensures b.fields[MessageKey] == Str(message)
    ensures CarriesExtra(b, extra, {MessageKey})
  {
    MakeBody(LogType, map[MessageKey := message], extra)
  }

  /** The body recordErrorEventForLevel builds. */
  function ErrorBody(message: string, extra: Option<map<string, Value>>): (b: Body)
    ensures b.kind == ErrorType && ShapeOk(b) && BodyTransferable(b)
    ensures b.fields[MessageKey] == Str(message)
    ensures CarriesExtra(b, extra, {MessageKey})
  {
    MakeBody(ErrorType, map[MessageKey := message], extra)
  }

  /** The body recordNavigationEventForLevel builds. */
  function NavigationBody(from: string, to: string, extra: Option<map<string, Value>>): (b: Body)
    ensures b.kind == NavigationType && ShapeOk(b) && BodyTransferable(b)
    ensures b.fields[FromKey] == Str(from) && b.fields[ToKey] == Str(to)
    ensures CarriesExtra(b, extra, {FromKey, ToKey})
  {
    MakeBody(NavigationType, map[FromKey := from, ToKey := to], extra)
  }

  /** The body recordNetworkEventForLevel builds. */
  function NetworkBody(httpMethod: string, url: string, statusCode: string, extra: Option<map<string, Value>>): (b: Body)
    ensures b.kind == NetworkType && ShapeOk(b) && BodyTransferable(b)
    ensures b.fields[MethodKey] == Str(httpMethod) && b.fields[UrlKey] == Str(url)
    ensures b.fields[StatusCodeKey] == Str(statusCode)
    ensures CarriesExtra(b, extra, {MethodKey, UrlKey, StatusCodeKey})
  {
    MakeBody(NetworkType, map[MethodKey := httpMethod, UrlKey := url, StatusCodeKey := statusCode], extra)
  }

  /** The body recordConnectivityEventForLevel builds. */
  function ConnectivityBody(status: string, extra: Option<map<string, Value>>): (b: Body)
    ensures b.kind == ConnectivityType && ShapeOk(b) && BodyTransferable(b)
    ensures b.fields[StatusKey] == Str(status)
    ensures CarriesExtra(b, extra, {StatusKey})
  {
    MakeBody(ConnectivityType, map[StatusKey := status], extra)
  }

  /** The body recordManualEventForLevel builds: the data itself, sanitised. */
  function ManualBody(data: map<string, Value>): (b: Body)
    ensures b.kind == ManualType && ShapeOk(b) && BodyTransferable(b)
    ensures forall k | k in data :: k in b.fields <==> IsTransferableDataValue(data[k])
    ensures forall k | k in b.fields :: k in data && b.fields[k] == data[k]
  {
    MakeBody(ManualType, map[], Some(data))
  }

  /** The body recordEventForLevel:type:data: builds: the data, sanitised, under the
      given kind. */
  function DataBody(kind: TelemetryType, data: Option<map<string, Value>>): (b: Body)
    ensures b.kind == kind && BodyTransferable(b)
    ensures CarriesExtra(b, data, {})
  {
    MakeBody(kind, map[], data)
  }

  /** The body recordViewEventForLevel builds. With scrubbing on, every extra input
      named in `toScrub` holds the scrubbed marker; every other input, and every input
      when scrubbing is off, is kept as given (if transferable). */
  function ViewBody(element: string, extra: Option<map<string, Value>>, scrub: bool, toScrub: set<string>): (b: Body)
    ensures b.kind == ViewType && ShapeOk(b) && BodyTransferable(b)
    ensures b.fields[ElementKey] == Str(element)
    ensures forall k | k in b.fields && k != ElementKey ::
      extra.Some? && k in extra.value &&
      b.fields[k] == (if scrub && k in toScrub then Str(ScrubbedMarker) else extra.value[k])
    ensures extra.Some? ==> forall k | k in extra.value && k != ElementKey && scrub && k in toScrub ::
      k in b.fields
    ensures extra.Some? ==> forall k | k in extra.value && k != ElementKey && !(scrub && k in toScrub) ::
      (k in b.fields <==> IsTransferableDataValue(extra.value[k]))
  {
    var inputs := if scrub && extra.Some? then Some(ScrubInputs(extra.value, toScrub)) else extra;
    MakeBody(ViewType, map[ElementKey := element], inputs)
  }

  /** The event's JSON-friendly form, as getAllData gives it. */
  function TypeName(kind: TelemetryType): string {
    match kind
    case LogType => "log"
    case ViewType => "view"
    case ErrorType => "error"
    case NavigationType => "navigation"
    case NetworkType => "network"
    case ConnectivityType => "connectivity"
    case ManualType => "manual"
  }

  /** The kind a type name stands for; any other string names none. */
  function TypeFromName(name: string): (kind: Option<TelemetryType>)
    ensures kind.Some? ==> TypeName(kind.value) == name
  {
    if name == "log" then Some(LogType)
    else if name == "view" then Some(ViewType)
    else if name == "error" then Some(ErrorType)
    else if name == "navigation" then Some(NavigationType)
    else if name == "network" then Some(NetworkType)
    else if name == "connectivity" then Some(ConnectivityType)
    else if name == "manual" then Some(ManualType)
    else None
  }

  /** Every kind's name reads back as that kind, so distinct kinds have distinct names. */
  lemma TypeNameRoundTrip(kind: TelemetryType)
    ensures TypeFromName(TypeName(kind)) == Some(kind)
  {
  }

  /** The event as a JSON tree: a dictionary with its level, source, type and body. A
      well-formed event gives a transferable object. */
  function EventData(e: Event): (v: Value)
    ensures v.Obj? && v.fields.Keys == {"level", "source", "type", "body"}
    ensures v.fields["level"] == Num(e.level.code) && v.fields["source"] == Num(e.source.code)
    ensures v.fields["type"] == Str(TypeName(e.body.kind))
    ensures v.fields["body"] == Obj(e.body.fields)
    ensures BodyTransferable(e.body) ==> IsTransferableObject(Some(v))
  {
    Obj(map["level" := Num(e.level.code), "source" := Num(e.source.code),
            "type" := Str(TypeName(e.body.kind)), "body" := Obj(e.body.fields)])
  }

  /** Reads an event back from its JSON form; a tree of any other shape gives none. */
  function EventFromData(v: Value): (e: Option<Event>)
    ensures e.Some? ==> v.Obj? && "type" in v.fields && "body" in v.fields
  {
    if v.Obj? && "level" in v.fields && "source" in v.fields && "type" in v.fields && "body" in v.fields
       && v.fields["level"].Num? && v.fields["level"].n >= 0
       && v.fields["source"].Num? && v.fields["source"].n >= 0
       && v.fields["type"].Str? && TypeFromName(v.fields["type"].s).Some?
       && v.fields["body"].Obj?
    then Some(Event(Level(v.fields["level"].n), Source(v.fields["source"].n),
                    Body(TypeFromName(v.fields["type"].s).value, v.fields["body"].fields)))
    else None
  }

  /** The JSON form loses nothing: reading it back gives the event. */
  lemma EventDataRoundTrip(e: Event)
    ensures EventFromData(EventData(e)) == Some(e)
  {
    TypeNameRoundTrip(e.body.kind);
  }

  /** Distinct events have distinct JSON forms. */
  lemma EventDataInjective(e1: Event, e2: Event)
    ensures EventData(e1) == EventData(e2) ==> e1 == e2
  {
    EventDataRoundTrip(e1);
    EventDataRoundTrip(e2);
  }

  // ---------------------------------------------------------------------------
  // The store, as functions of its state.

  /** The last `n` events of `s` (all of them when there are fewer). */
  function KeepLast(s: seq<Event>, n: nat): seq<Event> {
    if |s| <= n then s else s[|s| - n..]
  }

  /** The events after recordEvent: unchanged while disabled; otherwise the event is
      appended and the oldest events are evicted down to the limit. */
  function Admit(events: seq<Event>, limit: nat, enabled: bool, e: Event): seq<Event> {
    if enabled then KeepLast(events + [e], limit) else events
  }

  /** The events after recording each of `es` in order while enabled. */
  function RecordAll(events: seq<Event>, limit: nat, es: seq<Event>): seq<Event>
    decreases |es|
  {
    if es == [] then events else RecordAll(Admit(events, limit, true, es[0]), limit, es[1..])
  }

  /** KeepLast keeps a suffix no longer than the limit, and the whole sequence when it fits. */
  lemma KeepLastIsBoundedSuffix(s: seq<Event>, n: nat)
    ensures |KeepLast(s, n)| <= n && |KeepLast(s, n)| <= |s|
    ensures KeepLast(s, n) == s[|s| - |KeepLast(s, n)|..]
    ensures |s| <= n ==> KeepLast(s, n) == s
    ensures |s| >= n ==> |KeepLast(s, n)| == n
  {
  }

  /** Keeping the last `n` of a suffix that is itself at least `n` long, or the whole
      sequence, is keeping the last `n` of the sequence. */
  lemma KeepLastOfLongSuffix(z: seq<Event>, j: nat, n: nat)
    requires j <= |z|
    requires j == 0 || |z| - j >= n
    ensures KeepLast(z[j..], n) == KeepLast(z, n)
  {
    if j > 0 {
      assert z[j..][|z| - j - n..] == z[|z| - n..];
    }
  }

  /** Trimming, then appending, then trimming again is appending then trimming once. */
  lemma KeepLastAppend(x: seq<Event>, y: seq<Event>, n: nat)
    ensures KeepLast(KeepLast(x, n) + y, n) == KeepLast(x + y, n)
  {
    if |x| > n {
      var j := |x| - n;
      assert KeepLast(x, n) + y == (x + y)[j..];
      KeepLastOfLongSuffix(x + y, j, n);
    }
  }

  /** While disabled, recording leaves the events unchanged. */
  lemma AdmitWhileDisabled(events: seq<Event>, limit: nat, e: Event)
    ensures Admit(events, limit, false, e) == events
  {
  }

  /** Below the limit and enabled, recording appends exactly the event. */
  lemma AdmitBelowLimit(events: seq<Event>, limit: nat, e: Event)
    requires |events| < limit
    ensures Admit(events, limit, true, e) == events + [e]
    ensures |Admit(events, limit, true, e)| == |events| + 1 && e in Admit(events, limit, true, e)
  {
  }

  /** At the limit and enabled, recording evicts exactly the oldest event. */
  lemma AdmitAtLimit(events: seq<Event>, limit: nat, e: Event)
    requires |events| == limit > 0
    ensures Admit(events, limit, true, e) == events[1..] + [e]
  {
    assert (events + [e])[1..] == events[1..] + [e];
  }

  /** Recording keeps the bound, and with a positive limit the newest event is last. */
  lemma AdmitBounded(events: seq<Event>, limit: nat, enabled: bool, e: Event)
    requires |events| <= limit
    ensures |Admit(events, limit, enabled, e)| <= limit
    ensures enabled && limit > 0 ==> Admit(events, limit, enabled, e)[|Admit(events, limit, enabled, e)| - 1] == e
  {
    KeepLastIsBoundedSuffix(events + [e], limit);
  }

  /** Recording a series of events into a store within its limit leaves exactly the last
      `limit` of all events, old and new, in their original order. */
  lemma {:induction false} RecordAllKeepsLast(events: seq<Event>, limit: nat, es: seq<Event>)
    requires |events| <= limit
    ensures RecordAll(events, limit, es) == KeepLast(events + es, limit)
    decreases |es|
  {
    if es == [] {
      assert events + es == events;
    } else {
      var next := Admit(events, limit, true, es[0]);
      KeepLastIsBoundedSuffix(events + [es[0]], limit);
      RecordAllKeepsLast(next, limit, es[1..]);
      KeepLastAppend(events + [es[0]], es[1..], limit);
      assert events + [es[0]] + es[1..] == events + es;
    }
  }

  /** However many events are recorded, the store never holds more than the limit. */
  lemma RecordAllBounded(events: seq<Event>, limit: nat, es: seq<Event>)
    requires |events| <= limit
    ensures |RecordAll(events, limit, es)| <= limit
  {
    RecordAllKeepsLast(events, limit, es);
    KeepLastIsBoundedSuffix(events + es, limit);
  }

  /** The log event the log helper records. */
  function LogEvent(level: Level, message: string): Event {
    Event(level, DefaultSource, LogBody(message, None))
  }

  /** With room for two, recording logs "a", "b", "c" leaves the events of "b" and "c". */
  lemma TwoOfThreeLogsKept(level: Level)
    ensures RecordAll([], 2, [LogEvent(level, "a"), LogEvent(level, "b"), LogEvent(level, "c")])
         == [LogEvent(level, "b"), LogEvent(level, "c")]
  {
    var es := [LogEvent(level, "a"), LogEvent(level, "b"), LogEvent(level, "c")];
    RecordAllKeepsLast([], 2, es);
    assert [] + es == es;
  }

  // ---------------------------------------------------------------------------
  // The store object.

  /** RollbarTelemetryOptions: the settings configureWithOptions applies. */
  datatype TelemetryOptions = TelemetryOptions(
    enabled: bool,
    scrubViewInputs: bool,
    viewInputsToScrub: Option<set<string>>,
    dataLimit: nat)

  /** A well-formed event is one whose body is a transferable DTO. */
  predicate WellFormedEvent(e: Event) {
    BodyTransferable(e.body)
  }

  class TelemetryStore {
    var telemetryOptions: TelemetryOptions
    var enabled: bool
    var scrubViewInputs: bool
    var viewInputsToScrub: Option<set<string>>
    var dataLimit: nat
    var events: seq<Event>

    /** The store holds no more than its limit, and only well-formed events. */
    ghost predicate Valid()
      reads this
    {
      && |events| <= dataLimit
      && forall i | 0 <= i < |events| :: WellFormedEvent(events[i])
    }

    /** The inputs that view scrubbing replaces; a nil set names none. */
    function ScrubSet(): set<string>
      reads this
    {
      if viewInputsToScrub.Some? then viewInputsToScrub.value else {}
    }

    /** A store configured with `options` and holding no events. */
    constructor (options: TelemetryOptions)
      ensures Valid()
      ensures telemetryOptions == options && enabled == options.enabled
      ensures scrubViewInputs == options.scrubViewInputs && viewInputsToScrub == options.viewInputsToScrub
      ensures dataLimit == options.dataLimit && events == []
    {
      telemetryOptions := options;
      enabled := options.enabled;
      scrubViewInputs := options.scrubViewInputs;
      viewInputsToScrub := options.viewInputsToScrub;
      dataLimit := options.dataLimit;
      events := [];
    }

    /** Evicts the oldest events until no more than `dataLimit` remain. */
    method Trim()
      modifies this`events
      ensures events == KeepLast(old(events), dataLimit)
    {
      ghost var original := events;
      while |events| > dataLimit
        invariant |events| <= |original|
        invariant events == original[|original| - |events|..]
        invariant |events| >= dataLimit || events == original
        decreases |events|
      {
        events := events[1..];
      }
    }

    /** configureWithOptions: applies the options, trims the events to the new limit and
        returns the receiver. */
    method ConfigureWithOptions(options: TelemetryOptions) returns (r: TelemetryStore)
      requires Valid()
      modifies this
      ensures Valid() && r == this
      ensures telemetryOptions == options && enabled == options.enabled
      ensures scrubViewInputs == options.scrubViewInputs && viewInputsToScrub == options.viewInputsToScrub
      ensures dataLimit == options.dataLimit
      ensures events == KeepLast(old(events), options.dataLimit)
    {
      telemetryOptions := options;
      enabled := options.enabled;
      scrubViewInputs := options.scrubViewInputs;
      viewInputsToScrub := options.viewInputsToScrub;
      dataLimit := options.dataLimit;
      Trim();
      KeepLastIsBoundedSuffix(old(events), dataLimit);
      r := this;
    }

    /** The enabled setter. */
    method SetEnabled(value: bool)
      requires Valid()
      modifies this`enabled
      ensures Valid() && enabled == value
    {
      enabled := value;
    }

    /** The scrubViewInputs setter. */
    method SetScrubViewInputs(value: bool)
      requires Valid()
      modifies this`scrubViewInputs
      ensures Valid() && scrubViewInputs == value
    {
      scrubViewInputs := value;
    }

    /** The viewInputsToScrub setter. */
    method SetViewInputsToScrub(value: Option<set<string>>)
      requires Valid()
      modifies this`viewInputsToScrub
      ensures Valid() && viewInputsToScrub == value
    {
      viewInputsToScrub := value;
    }

    /** setDataLimit: a limit below zero is refused and the previous one kept; otherwise
        the limit is set and the oldest events beyond it are evicted. */
    method SetDataLimit(limit: int)
      requires Valid()
      modifies this`dataLimit, this`events
      ensures Valid()
      ensures limit < 0 ==> dataLimit == old(dataLimit) && events == old(events)
      ensures limit >= 0 ==> dataLimit == limit && events == KeepLast(old(events), limit)
    {
      if limit >= 0 {
        dataLimit := limit;
        Trim();
        KeepLastIsBoundedSuffix(old(events), dataLimit);
      }
    }

    /** recordEvent: nothing happens while disabled; otherwise the event is appended and
        the oldest events are evicted down to the limit. */
    method RecordEvent(e: Event)
      requires Valid() && WellFormedEvent(e)
      modifies this`events
      ensures Valid()
      ensures events == Admit(old(events), dataLimit, enabled, e)
    {
      if enabled {
        events := events + [e];
        Trim();
        KeepLastIsBoundedSuffix(old(events) + [e], dataLimit);
      }
    }

    /** recordEventWithLevel:source:eventBody:. */
    method RecordEventWithLevelSource(level: Level, source: Source, body: Body)
      requires Valid() && BodyTransferable(body)
      modifies this`events
      ensures Valid()
      ensures events == Admit(old(events), dataLimit, enabled, Event(level, source, body))
    {
      RecordEvent(Event(level, source, body));
    }

    /** recordEventWithLevel:eventBody:, with the default source. */
    method RecordEventWithLevel(level: Level, body: Body)
      requires Valid() && BodyTransferable(body)
      modifies this`events
      ensures Valid()
      ensures events == Admit(old(events), dataLimit, enabled, Event(level, DefaultSource, body))
    {
      RecordEvent(Event(level, DefaultSource, body));
    }

    /** recordEventForLevel:type:data:. */
    method RecordEventForLevel(level: Level, kind: TelemetryType, data: Option<map<string, Value>>)
      requires Valid()
      modifies this`events
      ensures Valid()
      ensures events == Admit(old(events), dataLimit, enabled, Event(level, DefaultSource, DataBody(kind, data)))
    {
      RecordEvent(Event(level, DefaultSource, DataBody(kind, data)));
    }

    /** recordViewEventForLevel:element:extraData:, scrubbing with the current settings. */
    method RecordViewEvent(level: Level, element: string, extraData: Option<map<string, Value>>)
      requires Valid()
      modifies this`events
      ensures Valid()
      ensures events == Admit(old(events), dataLimit, enabled,
        Event(level, DefaultSource, ViewBody(element, extraData, scrubViewInputs, ScrubSet())))
    {
      RecordEvent(Event(level, DefaultSource, ViewBody(element, extraData, scrubViewInputs, ScrubSet())));
    }

    /** recordNetworkEventForLevel:method:url:statusCode:extraData:. */
    method RecordNetworkEvent(level: Level, httpMethod: string, url: string, statusCode: string,
                              extraData: Option<map<string, Value>>)
      requires Valid()
      modifies this`events
      ensures Valid()
      ensures events == Admit(old(events), dataLimit, enabled,
        Event(level, DefaultSource, NetworkBody(httpMethod, url, statusCode, extraData)))
    {
      RecordEvent(Event(level, DefaultSource, NetworkBody(httpMethod, url, statusCode, extraData)));
    }

    /** recordConnectivityEventForLevel:status:extraData:. */
    method RecordConnectivityEvent(level: Level, status: string, extraData: Option<map<string, Value>>)
      requires Valid()
      modifies this`events
      ensures Valid()
      ensures events == Admit(old(events), dataLimit, enabled,
        Event(level, DefaultSource, ConnectivityBody(status, extraData)))
    {
      RecordEvent(Event(level, DefaultSource, ConnectivityBody(status, extraData)));
    }

    /** recordErrorEventForLevel:message:extraData:. */
    method RecordErrorEvent(level: Level, message: string, extraData: Option<map<string, Value>>)
      requires Valid()
      modifies this`events
      ensures Valid()
      ensures events == Admit(old(events), dataLimit, enabled,
        Event(level, DefaultSource, ErrorBody(message, extraData)))
    {
      RecordEvent(Event(level, DefaultSource, ErrorBody(message, extraData)));
    }

    /** recordNavigationEventForLevel:from:to:extraData:. */
    method RecordNavigationEvent(level: Level, from: string, to: string, extraData: Option<map<string, Value>>)
      requires Valid()
      modifies this`events
      ensures Valid()
      ensures events == Admit(old(events), dataLimit, enabled,
        Event(level, DefaultSource, NavigationBody(from, to, extraData)))
    {
      RecordEvent(Event(level, DefaultSource, NavigationBody(from, to, extraData)));
    }

    /** recordManualEventForLevel:withData:. */
    method RecordManualEvent(level: Level, data: map<string, Value>)
      requires Valid()
      modifies this`events
      ensures Valid()
      ensures events == Admit(old(events), dataLimit, enabled, Event(level, DefaultSource, ManualBody(data)))
    {
      RecordEvent(Event(level, DefaultSource, ManualBody(data)));
    }

    /** recordLogEventForLevel:message:extraData:. */
    method RecordLogEvent(level: Level, message: string, extraData: Option<map<string, Value>>)
      requires Valid()
      modifies this`events
      ensures Valid()
      ensures events == Admit(old(events), dataLimit, enabled,
        Event(level, DefaultSource, LogBody(message, extraData)))
    {
      RecordEvent(Event(level, DefaultSource, LogBody(message, extraData)));
    }

    /** getAllEvents: a snapshot of the captured events, oldest first, within the limit;
        the store is left as it was. */
    method GetAllEvents() returns (snapshot: seq<Event>)
      requires Valid()
      ensures snapshot == events && |snapshot| <= dataLimit
    {
      snapshot := events;
    }

    /** getAllData: the captured events in their JSON-friendly form, oldest first; the
        whole snapshot is a transferable array. */
    method GetAllData() returns (data: seq<Value>)
      requires Valid()
      ensures |data| == |events|
      ensures forall i | 0 <= i < |data| :: data[i] == EventData(events[i])
      ensures IsTransferableObject(Some(Arr(data)))
    {
      var captured := events;
      data := seq(|captured|, i requires 0 <= i < |captured| => EventData(captured[i]));
    }

    /** clearAllData: the store holds no events; the settings are untouched. */
    method ClearAllData()
      requires Valid()
      modifies this`events
      ensures Valid() && events == []
    {
      events := [];
    }
  }
}
