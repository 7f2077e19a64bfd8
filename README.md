# Rollbar Apple SDK core, modelled in Dafny

This project models four components of the Rollbar SDK for Apple platforms. All four are
specified by their Objective-C headers:

- **RollbarTelemetry** (`TelemetryStore` in `Telemetry.dfy`) is the application-wide
  telemetry service. It captures telemetry events, oldest first, and keeps at most
  `dataLimit` of them. The `enabled` switch turns capture on and off. View events can have
  the inputs named in `viewInputsToScrub` scrubbed. Seven per-kind helpers (log, view,
  error, navigation, network, connectivity, manual) build an event body and funnel it into
  `recordEvent:`. `getAllEvents` and `getAllData` read a snapshot, and `clearAllData`
  empties the store.
- **RollbarDTO** (`DtoBase.dfy`) is the data-transfer-object base. Its storage is either a
  dictionary or an array of JSON-shaped values. `isTransferableObject:` and
  `isTransferableDataValue:` decide what may be stored. The read-only queries are
  `getDefinedProperties`, `hasSameDefinedPropertiesAs:` and `isEmpty`. There are five
  initialisers: JSON string, JSON bytes, dictionary, array and empty.
- **RollbarPerson** and **RollbarMutablePerson** (`Person.dfy`) are a typed DTO with a
  required `ID` and an optional `username` and `email`. It is stored as properties of the
  DTO's dictionary. The mutable variant updates those properties in place.
- **RollbarTriStateFlag** (`TriStateFlag.dfy`) is a three-valued flag with conversions to
  and from strings.

Foundation values are modelled by `DtoBase.Value`:
- null, booleans, integers, strings, arrays and string-keyed dictionaries;
- `Foreign(className)`, which stands for any other object (a date, a view, a block).

A value is a transferable data value (`isTransferableDataValue:`) when no `Foreign` value
occurs anywhere in its tree. `DtoBase.TransferableIffNoForeign` proves that the recursive
predicate agrees with this path-based reading. A transferable object
(`isTransferableObject:`) must also be non-nil and have a dictionary or an array at the
top. A bare string or number is a transferable data value but not a transferable object.

The headers hold only declarations. Where they leave behaviour open, the model makes the
following choices:
- Telemetry eviction is oldest-first.
- A negative limit passed to `setDataLimit:` is refused, and the previous limit is kept.
- A limit of 0 keeps no events.
- Caller-supplied extra data is sanitised field by field. Non-transferable fields are
  dropped and the others are kept.
- Scrubbed view inputs are replaced with the marker `"[scrubbed]"`. They are not dropped.
- A DTO initialiser refuses a seed that holds a non-transferable value (`SchemaError`).
  It refuses JSON that does not parse (`ParseError`). It also refuses parsed JSON whose
  root is a scalar (`SchemaError`).
- A nil optional person field is stored as null.
- The flag's strings are `"None"`, `"On"` and `"Off"`. Any other string, and nil, read as
  None.

## Model

| member | source | states |
|---|---|---|
| `TriStateFlag.ToString` | RollbarCommon/Sources/RollbarCommon/include/RollbarTriStateFlag.h:21-23 | total; every flag gets a non-empty name, and each of the three names belongs to exactly one flag |
| `TriStateFlag.FromString` | RollbarCommon/Sources/RollbarCommon/include/RollbarTriStateFlag.h:25-27 | total over all strings and nil; On and Off exactly for their names, None for everything else |
| `TriStateFlag.RoundTrip` | RollbarCommon/Sources/RollbarCommon/include/RollbarTriStateFlag.h:18-27 | reading back a flag's name gives the same flag |
| `TriStateFlag.ToStringInjective` | RollbarCommon/Sources/RollbarCommon/include/RollbarTriStateFlag.h:21-27 | distinct flags have distinct names (from the round trip) |
| `TriStateFlag.FromStringThenToString` | RollbarCommon/Sources/RollbarCommon/include/RollbarTriStateFlag.h:21-27 | a string read as a flag and written back is unchanged unless it named no flag and read as None |
| `DtoBase.IsTransferableDataValue` | RollbarCommon/Sources/RollbarCommon/include/RollbarDTO.h:28-30 | defined by recursion: null, booleans, numbers and strings are data values; an array or a dictionary is one when all its elements or values are; any other object is not |
| `DtoBase.IsTransferableObject` | RollbarCommon/Sources/RollbarCommon/include/RollbarDTO.h:24-26 | defined as: non-nil, a dictionary or an array at the top, and a transferable data value |
| `DtoBase.NilNotTransferableObject` | RollbarCommon/Sources/RollbarCommon/include/RollbarDTO.h:24-26 | nil is not a transferable object |
| `DtoBase.DataValueVersusObject` | RollbarCommon/Sources/RollbarCommon/include/RollbarDTO.h:24-30 | a data value is a scalar or a transferable object; a bare scalar is never a transferable object |
| `DtoBase.ArrayTransferableIffElements` | RollbarCommon/Sources/RollbarCommon/include/RollbarDTO.h:24-26 | an array is transferable iff each element is a transferable data value |
| `DtoBase.DictionaryTransferableIffValues` | RollbarCommon/Sources/RollbarCommon/include/RollbarDTO.h:24-26 | a dictionary is transferable iff each of its values is |
| `DtoBase.NoForeignInTransferable` | RollbarCommon/Sources/RollbarCommon/include/RollbarDTO.h:28-30 | no path into a transferable data value reaches a non-JSON object |
| `DtoBase.ForeignWitness` | RollbarCommon/Sources/RollbarCommon/include/RollbarDTO.h:28-30 | a value that is not transferable has a path to a non-JSON object inside it |
| `DtoBase.TransferableIffNoForeign` | RollbarCommon/Sources/RollbarCommon/include/RollbarDTO.h:28-30 | isTransferableDataValue holds exactly when the value contains nothing but null, booleans, numbers, strings, arrays and dictionaries |
| `DtoBase.WellFormedIffRootTransferable` | RollbarCommon/Sources/RollbarCommon/include/RollbarDTO.h:19-26 | a DTO using one store is well formed exactly when its root passes isTransferableObject |
| `DtoBase.Init` | RollbarCommon/Sources/RollbarCommon/include/RollbarDTO.h:62-64 | init gives a well-formed, dictionary-rooted DTO that is empty and defines no property |
| `DtoBase.InitWithDictionary` | RollbarCommon/Sources/RollbarCommon/include/RollbarDTO.h:52-55 | nil gives the init DTO; a dictionary succeeds iff it is transferable, and then the DTO is dictionary-rooted only, holds that tree and defines exactly its keys; refusal is a schema error |
| `DtoBase.InitWithArray` | RollbarCommon/Sources/RollbarCommon/include/RollbarDTO.h:57-60 | succeeds iff the array is transferable, and then the DTO is array-rooted only, holds that array and defines no property; refusal is a schema error |
| `DtoBase.FromParsed` | RollbarCommon/Sources/RollbarCommon/include/RollbarDTO.h:44-60 | no parse tree is a parse error; a parsed tree succeeds iff it is a transferable object, and the DTO's root is that tree; a parsed tree that is refused (a scalar root or a non-transferable value inside) is a schema error |
| `DtoBase.InitWithJsonData` | RollbarCommon/Sources/RollbarCommon/include/RollbarDTO.h:48-50 | unparsable bytes give a parse error; otherwise success iff the parsed tree is a transferable object, whose tree becomes the root, and refusal of a parsed tree is a schema error |
| `DtoBase.InitWithJsonString` | RollbarCommon/Sources/RollbarCommon/include/RollbarDTO.h:44-46 | as for bytes, for JSON text: a parse error only when the text does not parse, a schema error when the parsed tree is refused |
| `DtoBase.ReseedRoundTrip` | RollbarCommon/Sources/RollbarCommon/include/RollbarDTO.h:44-60 | seeding an initialiser with a well-formed DTO's own tree gives back that DTO |
| `DtoBase.NilDictionaryIsInit` | RollbarCommon/Sources/RollbarCommon/include/RollbarDTO.h:52-64 | initWithDictionary:nil equals init, which is empty with no properties |
| `DtoBase.DefinedProperties` | RollbarCommon/Sources/RollbarCommon/include/RollbarDTO.h:32-33 | defined as the dictionary root's keys; an array-rooted DTO defines none |
| `DtoBase.HasSameDefinedPropertiesAs` | RollbarCommon/Sources/RollbarCommon/include/RollbarDTO.h:35-37 | defined as: as many properties, and each of this DTO's is defined by the other |
| `DtoBase.IsEmpty` | RollbarCommon/Sources/RollbarCommon/include/RollbarDTO.h:39-40 | defined as: the root store holds no entry |
| `DtoBase.SamePropertiesIsSetEquality` | RollbarCommon/Sources/RollbarCommon/include/RollbarDTO.h:32-37 | hasSameDefinedPropertiesAs holds exactly when both DTOs define the same set of names |
| `DtoBase.SamePropertiesIsEquivalence` | RollbarCommon/Sources/RollbarCommon/include/RollbarDTO.h:35-37 | hasSameDefinedPropertiesAs is reflexive, symmetric and transitive |
| `DtoBase.SamePropertiesIgnoresValues` | RollbarCommon/Sources/RollbarCommon/include/RollbarDTO.h:35-37 | changing the value of a defined property never changes the result of hasSameDefinedPropertiesAs |
| `DtoBase.EmptyIffNoProperties` | RollbarCommon/Sources/RollbarCommon/include/RollbarDTO.h:39-40 | a dictionary DTO is empty iff it defines no property; a property holding null makes it non-empty |
| `Person.Id` | RollbarNotifier/Sources/RollbarNotifier/include/RollbarPerson.h:46-53 | the ID getter: the string under the id property, defined for persons only, so never nil |
| `Person.Username` | RollbarNotifier/Sources/RollbarNotifier/include/RollbarPerson.h:55-58 | the username getter: the string under the username property, nil when null or absent |
| `Person.Email` | RollbarNotifier/Sources/RollbarNotifier/include/RollbarPerson.h:60-63 | the email getter: the string under the email property, nil when null or absent |
| `Person.WithinDocumentedLimits` | RollbarNotifier/Sources/RollbarNotifier/include/RollbarPerson.h:46-63 | the documented bounds: an ID of at most 40 characters, a username and an email of at most 255 |
| `Person.InitWithIdUsernameEmail` | RollbarNotifier/Sources/RollbarNotifier/include/RollbarPerson.h:13-20 | the result is a person whose ID, username and email read back exactly as supplied; it defines exactly id, username and email |
| `Person.InitWithIdUsername` | RollbarNotifier/Sources/RollbarNotifier/include/RollbarPerson.h:22-26 | ID and username read back as supplied, email is nil |
| `Person.InitWithIdEmail` | RollbarNotifier/Sources/RollbarNotifier/include/RollbarPerson.h:27-31 | ID and email read back as supplied, username is nil |
| `Person.InitWithId` | RollbarNotifier/Sources/RollbarNotifier/include/RollbarPerson.h:33-35 | ID reads back as supplied, username and email are nil |
| `Person.InitWithinLimitsIff` | RollbarNotifier/Sources/RollbarNotifier/include/RollbarPerson.h:46-63 | a person is within the documented bounds (ID up to 40, username and email up to 255 characters) iff its arguments are |
| `Person.PersonsShareSchema` | RollbarNotifier/Sources/RollbarNotifier/include/RollbarPerson.h:13-35 | any two persons from the initialisers have the same defined properties |
| `Person.MutableInitWithoutId` | RollbarNotifier/Sources/RollbarNotifier/include/RollbarPerson.h:74-75 | the public parameterless init of the mutable person leaves an empty DTO with no ID: not a person |
| `Person.MutablePerson.GetId` | RollbarNotifier/Sources/RollbarNotifier/include/RollbarPerson.h:79-86 | the readwrite ID property reads the id stored in the person's DTO |
| `Person.MutablePerson.GetUsername` | RollbarNotifier/Sources/RollbarNotifier/include/RollbarPerson.h:88-91 | the readwrite username property reads the stored username, nil when null |
| `Person.MutablePerson.GetEmail` | RollbarNotifier/Sources/RollbarNotifier/include/RollbarPerson.h:93-96 | the readwrite email property reads the stored email, nil when null |
| `Person.MutablePerson.constructor` | RollbarNotifier/Sources/RollbarNotifier/include/RollbarPerson.h:13-20 | the mutable person built from an ID, username and email is a person that reads them back |
| `Person.MutablePerson.SetId` | RollbarNotifier/Sources/RollbarNotifier/include/RollbarPerson.h:79-86 | assigning the ID changes only the id property; username, email and the set of defined properties stay |
| `Person.MutablePerson.SetUsername` | RollbarNotifier/Sources/RollbarNotifier/include/RollbarPerson.h:88-91 | assigning the username changes only the username property; ID and email stay |
| `Person.MutablePerson.SetEmail` | RollbarNotifier/Sources/RollbarNotifier/include/RollbarPerson.h:93-96 | assigning the email changes only the email property; ID and username stay |
| `Telemetry.BodyIsDto` | RollbarNotifier/Sources/RollbarNotifier/include/RollbarTelemetry.h:80-86 | a body's fields are transferable exactly when the dictionary-rooted DTO holding them is well formed |
| `Telemetry.MakeBody` | RollbarNotifier/Sources/RollbarNotifier/include/RollbarTelemetry.h:94-100 | a body of the given kind: every field transferable, each named argument stored as given, every other field a kept extra-data field, and each transferable extra-data field kept |
| `Telemetry.DataBody` | RollbarNotifier/Sources/RollbarNotifier/include/RollbarTelemetry.h:94-100 | the body of recordEventForLevel:type:data: has the given kind. Its fields are exactly the transferable fields of the data, unchanged; nil data gives no fields |
| `Telemetry.ViewBody` | RollbarNotifier/Sources/RollbarNotifier/include/RollbarTelemetry.h:102-108 | a view body carries the element; with scrubbing on, inputs named in the scrub set hold the marker and are never dropped; other inputs are unchanged |
| `Telemetry.NetworkBody` | RollbarNotifier/Sources/RollbarNotifier/include/RollbarTelemetry.h:110-120 | a network body carrying the method, url and status code, fitting its kind. Every other field comes unchanged from the extra data, and an extra-data field is kept exactly when its value is transferable |
| `Telemetry.ConnectivityBody` | RollbarNotifier/Sources/RollbarNotifier/include/RollbarTelemetry.h:122-128 | a connectivity body carrying the status, fitting its kind. Every other field comes unchanged from the extra data, and an extra-data field is kept exactly when its value is transferable |
| `Telemetry.ErrorBody` | RollbarNotifier/Sources/RollbarNotifier/include/RollbarTelemetry.h:130-136 | an error body carrying the message, fitting its kind. Every other field comes unchanged from the extra data, and an extra-data field is kept exactly when its value is transferable |
| `Telemetry.NavigationBody` | RollbarNotifier/Sources/RollbarNotifier/include/RollbarTelemetry.h:138-146 | a navigation body carrying from and to, fitting its kind. Every other field comes unchanged from the extra data, and an extra-data field is kept exactly when its value is transferable |
| `Telemetry.ManualBody` | RollbarNotifier/Sources/RollbarNotifier/include/RollbarTelemetry.h:148-152 | a manual body holding exactly the transferable fields of the data |
| `Telemetry.LogBody` | RollbarNotifier/Sources/RollbarNotifier/include/RollbarTelemetry.h:154-160 | a log body carrying the message, fitting its kind. Every other field comes unchanged from the extra data, and an extra-data field is kept exactly when its value is transferable |
| `Telemetry.EventData` | RollbarNotifier/Sources/RollbarNotifier/include/RollbarTelemetry.h:166-167 | an event's JSON form has exactly level, source, type and body, holding the event's level and source ordinals, its kind's name and its body fields; it is a transferable object when the body is |
| `Telemetry.EventFromData` | RollbarNotifier/Sources/RollbarNotifier/include/RollbarTelemetry.h:166-167 | reads an event back from its JSON form; only a dictionary with type and body can give one |
| `Telemetry.EventDataRoundTrip` | RollbarNotifier/Sources/RollbarNotifier/include/RollbarTelemetry.h:166-167 | reading back an event's JSON form gives the event: getAllData loses nothing |
| `Telemetry.EventDataInjective` | RollbarNotifier/Sources/RollbarNotifier/include/RollbarTelemetry.h:166-167 | distinct events have distinct JSON forms |
| `Telemetry.Admit` | RollbarNotifier/Sources/RollbarNotifier/include/RollbarTelemetry.h:76-78 | the events after recordEvent: unchanged while disabled, otherwise the event appended and the oldest evicted down to the limit |
| `Telemetry.KeepLastIsBoundedSuffix` | RollbarNotifier/Sources/RollbarNotifier/include/RollbarTelemetry.h:70-72 | trimming to a limit keeps a suffix within the limit, and everything when it fits |
| `Telemetry.KeepLastAppend` | RollbarNotifier/Sources/RollbarNotifier/include/RollbarTelemetry.h:70-78 | trimming, appending and trimming again equals appending and trimming once |
| `Telemetry.AdmitWhileDisabled` | RollbarNotifier/Sources/RollbarNotifier/include/RollbarTelemetry.h:57-58 | while disabled, recording leaves the events unchanged |
| `Telemetry.AdmitBelowLimit` | RollbarNotifier/Sources/RollbarNotifier/include/RollbarTelemetry.h:76-78 | enabled and below the limit, recording appends exactly the event, so the count grows by one |
| `Telemetry.AdmitAtLimit` | RollbarNotifier/Sources/RollbarNotifier/include/RollbarTelemetry.h:70-78 | enabled and at the limit, recording evicts exactly the oldest event |
| `Telemetry.AdmitBounded` | RollbarNotifier/Sources/RollbarNotifier/include/RollbarTelemetry.h:70-78 | recording keeps the bound, and with a positive limit the new event is the newest |
| `Telemetry.RecordAllKeepsLast` | RollbarNotifier/Sources/RollbarNotifier/include/RollbarTelemetry.h:76-78 | any series of recordings leaves exactly the last limit-many events, old and new, in their original order |
| `Telemetry.RecordAllBounded` | RollbarNotifier/Sources/RollbarNotifier/include/RollbarTelemetry.h:70-72 | however many events are recorded, no more than the limit are held |
| `Telemetry.TwoOfThreeLogsKept` | RollbarNotifier/Sources/RollbarNotifier/include/RollbarTelemetry.h:154-160 | with a limit of two, logging "a", "b", "c" leaves the events of "b" and "c" |
| `Telemetry.TelemetryStore.constructor` | RollbarNotifier/Sources/RollbarNotifier/include/RollbarTelemetry.h:28-28 | the store starts with the given options and no events |
| `Telemetry.TelemetryStore.Trim` | RollbarNotifier/Sources/RollbarNotifier/include/RollbarTelemetry.h:70-72 | evicting from the front leaves the last limit-many events |
| `Telemetry.TelemetryStore.ConfigureWithOptions` | RollbarNotifier/Sources/RollbarNotifier/include/RollbarTelemetry.h:51-55 | returns the receiver; telemetryOptions and every switch reflect the options, and the events are trimmed to the new limit |
| `Telemetry.TelemetryStore.SetEnabled` | RollbarNotifier/Sources/RollbarNotifier/include/RollbarTelemetry.h:57-58 | sets the switch and nothing else |
| `Telemetry.TelemetryStore.SetScrubViewInputs` | RollbarNotifier/Sources/RollbarNotifier/include/RollbarTelemetry.h:60-61 | sets the scrub switch and nothing else |
| `Telemetry.TelemetryStore.SetViewInputsToScrub` | RollbarNotifier/Sources/RollbarNotifier/include/RollbarTelemetry.h:63-64 | sets the (nullable) scrub set and nothing else |
| `Telemetry.TelemetryStore.SetDataLimit` | RollbarNotifier/Sources/RollbarNotifier/include/RollbarTelemetry.h:70-72 | a negative limit changes nothing; otherwise the limit is set and the events are trimmed to it, so the bound holds from then on |
| `Telemetry.TelemetryStore.RecordEvent` | RollbarNotifier/Sources/RollbarNotifier/include/RollbarTelemetry.h:76-78 | the events become Admit of the old events: unchanged while disabled, else appended and trimmed; the bound is kept |
| `Telemetry.TelemetryStore.RecordEventWithLevelSource` | RollbarNotifier/Sources/RollbarNotifier/include/RollbarTelemetry.h:80-86 | records one event with the given level, source and body |
| `Telemetry.TelemetryStore.RecordEventWithLevel` | RollbarNotifier/Sources/RollbarNotifier/include/RollbarTelemetry.h:88-92 | records one event with the given level and body, and the default source |
| `Telemetry.TelemetryStore.RecordEventForLevel` | RollbarNotifier/Sources/RollbarNotifier/include/RollbarTelemetry.h:94-100 | records one event of the given kind, built from the sanitised data |
| `Telemetry.TelemetryStore.RecordViewEvent` | RollbarNotifier/Sources/RollbarNotifier/include/RollbarTelemetry.h:102-108 | records at most one view event, scrubbed with the store's current scrub switch and set |
| `Telemetry.TelemetryStore.RecordNetworkEvent` | RollbarNotifier/Sources/RollbarNotifier/include/RollbarTelemetry.h:110-120 | records at most one network event carrying the method, url and status code |
| `Telemetry.TelemetryStore.RecordConnectivityEvent` | RollbarNotifier/Sources/RollbarNotifier/include/RollbarTelemetry.h:122-128 | records at most one connectivity event carrying the status |
| `Telemetry.TelemetryStore.RecordErrorEvent` | RollbarNotifier/Sources/RollbarNotifier/include/RollbarTelemetry.h:130-136 | records at most one error event carrying the message |
| `Telemetry.TelemetryStore.RecordNavigationEvent` | RollbarNotifier/Sources/RollbarNotifier/include/RollbarTelemetry.h:138-146 | records at most one navigation event carrying from and to |
| `Telemetry.TelemetryStore.RecordManualEvent` | RollbarNotifier/Sources/RollbarNotifier/include/RollbarTelemetry.h:148-152 | records at most one manual event holding the sanitised data |
| `Telemetry.TelemetryStore.RecordLogEvent` | RollbarNotifier/Sources/RollbarNotifier/include/RollbarTelemetry.h:154-160 | records at most one log event carrying the message |
| `Telemetry.TelemetryStore.GetAllEvents` | RollbarNotifier/Sources/RollbarNotifier/include/RollbarTelemetry.h:164-164 | returns the captured events, within the limit, and changes nothing |
| `Telemetry.TelemetryStore.GetAllData` | RollbarNotifier/Sources/RollbarNotifier/include/RollbarTelemetry.h:166-167 | returns each captured event's JSON form, in order, as a transferable array, and changes nothing |
| `Telemetry.TelemetryStore.ClearAllData` | RollbarNotifier/Sources/RollbarNotifier/include/RollbarTelemetry.h:169-170 | leaves an empty (non-nil) event sequence and the settings unchanged |

## Left out

- The bodies of the Objective-C methods are not part of this model. Only the headers are.
  What the headers leave open is chosen as described above.
- The `NSLog` redirection macro, `NSLogReplacement:` and `setCaptureLog:` are not
  modelled. They patch a global symbol and format printf-style strings.
- Thread safety is not modelled: the `atomic` properties and concurrent producers. The
  store is modelled sequentially, one call at a time.
- Singleton plumbing is not modelled: `sharedInstance`, `sharedInstanceExists` and the
  `NS_UNAVAILABLE` alloc, copy and dealloc declarations. The store is an explicitly
  constructed object.
- JSON parsing behind `initWithJSONString:` and `initWithJSONData:` is Foundation's
  serialiser. It is a parameter of those functions.
- RollbarLevel.h, RollbarSource.h and RollbarTelemetryType.h are not part of this model.
  Levels and sources are carried as ordinals. An event recorded without a source gets
  ordinal 0.
- The telemetry body classes are not part of this model. A body is its kind plus a field
  map. The field names follow the helpers' parameter names. `ShapeOk` is the consistency
  between kind and fields.
- Event timestamps and floating-point JSON numbers are not modelled. Numbers are integers.
- Only string keys are modelled. A dictionary with non-string keys cannot be expressed in
  the value type.
- `getDefinedProperties` returns a set rather than an ordered array.
  `NSDictionary.allKeys` gives no order.
- RollbarSession.h (session state and crash check) is not part of this model.
- The Package.swift manifests and the Swift test file are not modelled. The manifests are
  build configuration. The test drives live network transmission.
- Person.WithinDocumentedLimits: lengths are counted in characters (Unicode scalar
  values). NSString counts UTF-16 code units, so a character outside the Basic
  Multilingual Plane counts once here and twice there.
- Telemetry.TelemetryStore.GetAllData: the header's nullable result is always a
  non-nil array here.
- Telemetry.TelemetryStore.RecordEventForLevel: any type and data pair is accepted. The
  recorded body need not fit its kind (`ShapeOk`): for example, a network event may come
  without method, url or status code. So the store's invariant promises transferable
  bodies only. Every other recording helper builds a body that fits its kind.
- Telemetry.TelemetryStore.SetViewInputsToScrub: the header's retained `NSMutableSet` is
  modelled as a value set. Aliasing is not captured: a caller that mutates the set after
  handing it over changes what the store scrubs, and the model cannot express that.

## Findings

| source | as written | input that shows it | evidently intended | confidence | as-written member | corrected member |
|---|---|---|---|---|---|---|
| RollbarNotifier/Sources/RollbarNotifier/include/RollbarPerson.h:74-75 | RollbarMutablePerson re-declares `init` as public (no `NS_UNAVAILABLE`), although its comment says it hides the parameterless initialiser and `ID` is declared nonnull | `[[RollbarMutablePerson alloc] init]`, then reading `ID` | the parameterless initialiser is unavailable, as it is on RollbarPerson, so every mutable person is built with an ID | low: the implementation file is not part of the model; not executed | `Person.MutableInitWithoutId` | `Person.MutablePerson.constructor` |
