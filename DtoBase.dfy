/** The data-transfer-object base of RollbarDTO.h: a JSON-shaped container rooted at
    either a dictionary or an array, the two transferability predicates that gate what
    may go into it, and its read-only queries. */
module DtoBase {
  import opened Wrappers

  /** The values a Foundation object graph can hold. The first six variants are the
      JSON-representable ones (NSNull, NSNumber as a boolean or an integer, NSString,
      NSArray, NSDictionary with string keys); `Foreign` stands for any other object
      (a date, a view, a block), named by its class. */
  datatype Value =
    | Null
    | Bool(b: bool)
    | Num(n: int)
    | Str(s: string)
    | Arr(items: seq<Value>)
    | Obj(fields: map<string, Value>)
    | Foreign(className: string)

  predicate IsScalar(v: Value) {
    v.Null? || v.Bool? || v.Num? || v.Str?
  }

  predicate IsContainer(v: Value) {
    v.Arr? || v.Obj?
  }

  /** isTransferableDataValue: the value may be stored as a DTO property, that is, it is
      built only from null, booleans, numbers, strings, arrays and string-keyed
      dictionaries of such values. */
  predicate IsTransferableDataValue(v: Value)
    decreases v
  {
    match v
    case Foreign(_) => false
    case Arr(items) => forall i | 0 <= i < |items| :: IsTransferableDataValue(items[i])
    case Obj(fields) => forall k | k in fields :: IsTransferableDataValue(fields[k])
    case _ => true
  }

  /** isTransferableObject: the (nullable) object could be converted to JSON text, which
      takes a dictionary or an array at the top, with transferable contents. */
  predicate IsTransferableObject(obj: Option<Value>) {
    obj.Some? && IsContainer(obj.value) && IsTransferableDataValue(obj.value)
  }

  /** nil is never a transferable object. */
  lemma NilNotTransferableObject()
    ensures !IsTransferableObject(None)
  {
  }

  /** The two predicates agree on containers; on their own, scalars are data values but
      not transferable objects. */
  lemma DataValueVersusObject(v: Value)
    ensures IsTransferableDataValue(v) <==> IsScalar(v) || IsTransferableObject(Some(v))
    ensures IsScalar(v) ==> !IsTransferableObject(Some(v))
  {
  }

  /** Closure under nesting, for arrays: an array is transferable iff each element is. */
  lemma ArrayTransferableIffElements(items: seq<Value>)
    ensures IsTransferableObject(Some(Arr(items)))
        <==> forall i | 0 <= i < |items| :: IsTransferableDataValue(items[i])
  {
  }

  /** Closure under nesting, for dictionaries: a dictionary is transferable iff each of
      its values is. */
  lemma DictionaryTransferableIffValues(fields: map<string, Value>)
    ensures IsTransferableObject(Some(Obj(fields)))
        <==> forall k | k in fields :: IsTransferableDataValue(fields[k])
  {
  }

  // ---------------------------------------------------------------------------
  // An independent reading of transferability: no foreign object is reachable.

  /** One step down into a container: an array index or a dictionary key. */
  datatype Step = Index(i: nat) | Key(k: string)

  /** The value reached from `v` by following `path`, if the path exists. */
  function At(v: Value, path: seq<Step>): Option<Value>
    decreases |path|
  {
    if path == [] then Some(v)
    else
      match path[0]
      case Index(i) =>
        if v.Arr? && i < |v.items| then At(v.items[i], path[1..]) else None
      case Key(k) =>
        if v.Obj? && k in v.fields then At(v.fields[k], path[1..]) else None
  }

  /** `path` leads from `v` to a non-JSON object. */
  predicate ForeignAt(v: Value, path: seq<Step>) {
    var w := At(v, path);
    w.Some? && w.value.Foreign?
  }

  /** A transferable value has no foreign object anywhere inside it. */
  lemma {:induction false} NoForeignInTransferable(v: Value, path: seq<Step>)
    requires IsTransferableDataValue(v)
    ensures !ForeignAt(v, path)
    decreases |path|
  {
    if path != [] {
      match path[0]
      case Index(i) =>
        if v.Arr? && i < |v.items| {
          NoForeignInTransferable(v.items[i], path[1..]);
        }
      case Key(k) =>
        if v.Obj? && k in v.fields {
          NoForeignInTransferable(v.fields[k], path[1..]);
        }
    }
  }

  /** A value that is not transferable contains a foreign object, and `path` finds it. */
  lemma {:induction false} ForeignWitness(v: Value) returns (path: seq<Step>)
    requires !IsTransferableDataValue(v)
    ensures ForeignAt(v, path)
    decreases v
  {
    match v
    case Foreign(_) =>
      path := [];
    case Arr(items) =>
      var i :| 0 <= i < |items| && !IsTransferableDataValue(items[i]);
      var rest := ForeignWitness(items[i]);
      path := [Index(i)] + rest;
      assert path[1..] == rest;
    case Obj(fields) =>
      var k :| k in fields && !IsTransferableDataValue(fields[k]);
      var rest := ForeignWitness(fields[k]);
      path := [Key(k)] + rest;
      assert path[1..] == rest;
  }

  /** isTransferableDataValue holds exactly when no path reaches a foreign object. */
  lemma TransferableIffNoForeign(v: Value)
    ensures IsTransferableDataValue(v) <==> forall path :: !ForeignAt(v, path)
  {
    if IsTransferableDataValue(v) {
      forall path ensures !ForeignAt(v, path) {
        NoForeignInTransferable(v, path);
      }
    } else {
      var path := ForeignWitness(v);
    }
  }

  // ---------------------------------------------------------------------------
  // The DTO itself.

  /** Why an initialiser refused its seed: the JSON text or bytes did not parse, or the
      seed held a value that is not transferable (or was a bare scalar). */
  datatype DtoError = ParseError | SchemaError

  /** The DTO's private storage: the dictionary store and the array store of the header.
      An initialised DTO uses exactly one of them (see `WellFormed`). */
  datatype Dto = Dto(dataDictionary: Option<map<string, Value>>, dataArray: Option<seq<Value>>)

  /** A well-formed DTO: exactly one store is in use, and everything it holds is
      transferable. */
  predicate WellFormed(d: Dto) {
    && (d.dataDictionary.Some? != d.dataArray.Some?)
    && (d.dataDictionary.Some? ==>
          forall k | k in d.dataDictionary.value :: IsTransferableDataValue(d.dataDictionary.value[k]))
    && (d.dataArray.Some? ==>
          forall i | 0 <= i < |d.dataArray.value| :: IsTransferableDataValue(d.dataArray.value[i]))
  }

  /** The JSON tree a DTO stands for: its dictionary or its array. */
  function Root(d: Dto): Value
    requires d.dataDictionary.Some? || d.dataArray.Some?
  {
    if d.dataDictionary.Some? then Obj(d.dataDictionary.value) else Arr(d.dataArray.value)
  }

  /** A DTO is well formed exactly when its root is a transferable object. */
  lemma WellFormedIffRootTransferable(d: Dto)
    requires d.dataDictionary.Some? != d.dataArray.Some?
    ensures WellFormed(d) <==> IsTransferableObject(Some(Root(d)))
  {
  }

  /** init: the empty, dictionary-rooted DTO. */
  function Init(): (d: Dto)
    ensures WellFormed(d) && d.dataArray.None?
    ensures IsEmpty(d) && DefinedProperties(d) == {}
  {
    Dto(Some(map[]), None)
  }

  /** initWithDictionary: a nil seed gives the same DTO as init; a dictionary seed is
      stored as the dictionary root when every value in it is transferable, and refused
      with a schema error otherwise. */
  function InitWithDictionary(data: Option<map<string, Value>>): (r: Result<Dto, DtoError>)
    ensures data.None? ==> r == Success(Init())
    ensures data.Some? ==> (r.Success? <==> IsTransferableObject(Some(Obj(data.value))))
    ensures r.Success? ==> WellFormed(r.value) && r.value.dataArray.None?
    ensures r.Success? && data.Some? ==>
      DefinedProperties(r.value) == data.value.Keys && Root(r.value) == Obj(data.value)
    ensures r.Failure? ==> r.error == SchemaError
  {
    match data
    case None => Success(Init())
    case Some(m) =>
      if forall k | k in m :: IsTransferableDataValue(m[k]) then Success(Dto(Some(m), None))
      else Failure(SchemaError)
  }

  /** initWithArray: an array seed is stored as the array root when every element is
      transferable, and refused with a schema error otherwise. */
  function InitWithArray(data: seq<Value>): (r: Result<Dto, DtoError>)
    ensures r.Success? <==> IsTransferableObject(Some(Arr(data)))
    ensures r.Success? ==> WellFormed(r.value) && r.value.dataDictionary.None? && Root(r.value) == Arr(data)
    ensures r.Success? ==> DefinedProperties(r.value) == {}
    ensures r.Failure? ==> r.error == SchemaError
  {
    if forall i | 0 <= i < |data| :: IsTransferableDataValue(data[i]) then Success(Dto(None, Some(data)))
    else Failure(SchemaError)
  }

  /** Builds a DTO from the tree a JSON parser produced: no tree is a parse error, a
      dictionary or an array goes to the matching initialiser, a bare scalar is refused. */
  function FromParsed(parsed: Option<Value>): (r: Result<Dto, DtoError>)
    ensures parsed.None? ==> r == Failure(ParseError)
    ensures parsed.Some? && r.Failure? ==> r.error == SchemaError
    ensures r.Success? <==> IsTransferableObject(parsed)
    ensures r.Success? ==> WellFormed(r.value) && Root(r.value) == parsed.value
  {
    match parsed
    case None => Failure(ParseError)
    case Some(v) =>
      match v
      case Obj(m) => InitWithDictionary(Some(m))
      case Arr(a) => InitWithArray(a)
      case _ => Failure(SchemaError)
  }

  /** initWithJSONData: the bytes are handed to the JSON parser (a parameter of the
      model) and its tree becomes the DTO. */
  function InitWithJsonData(data: seq<bv8>, parse: seq<bv8> -> Option<Value>): (r: Result<Dto, DtoError>)
    ensures parse(data).None? ==> r == Failure(ParseError)
    ensures parse(data).Some? && r.Failure? ==> r.error == SchemaError
    ensures r.Success? <==> IsTransferableObject(parse(data))
    ensures r.Success? ==> WellFormed(r.value) && Root(r.value) == parse(data).value
  {
    FromParsed(parse(data))
  }

  /** initWithJSONString: as initWithJSONData, for JSON text. */
  function InitWithJsonString(jsonString: string, parse: string -> Option<Value>): (r: Result<Dto, DtoError>)
    ensures parse(jsonString).None? ==> r == Failure(ParseError)
    ensures parse(jsonString).Some? && r.Failure? ==> r.error == SchemaError
    ensures r.Success? <==> IsTransferableObject(parse(jsonString))
    ensures r.Success? ==> WellFormed(r.value) && Root(r.value) == parse(jsonString).value
  {
    FromParsed(parse(jsonString))
  }

  /** Re-seeding a DTO with its own tree gives back the same DTO: the initialisers lose
      nothing and invent nothing. */
  lemma ReseedRoundTrip(d: Dto)
    requires WellFormed(d)
    ensures FromParsed(Some(Root(d))) == Success(d)
  {
  }

  /** Initialising with nil and with init give the same DTO. */
  lemma NilDictionaryIsInit()
    ensures InitWithDictionary(None) == Success(Init())
    ensures IsEmpty(Init()) && DefinedProperties(Init()) == {}
  {
  }

  // ---------------------------------------------------------------------------
  // Queries.

  /** getDefinedProperties: the names of the dictionary root's properties; an
      array-rooted DTO has none. */
  function DefinedProperties(d: Dto): set<string> {
    if d.dataDictionary.Some? then d.dataDictionary.value.Keys else {}
  }

  /** hasSameDefinedPropertiesAs: the two DTOs define as many properties, and each
      property of this one is defined by the other; values play no part. */
  predicate HasSameDefinedPropertiesAs(d: Dto, other: Dto) {
    var mine, theirs := DefinedProperties(d), DefinedProperties(other);
    |mine| == |theirs| && forall name | name in mine :: name in theirs
  }

  /** isEmpty: the root store holds no entry at all. */
  predicate IsEmpty(d: Dto) {
    if d.dataDictionary.Some? then |d.dataDictionary.value| == 0
    else d.dataArray.None? || |d.dataArray.value| == 0
  }

  /** hasSameDefinedPropertiesAs is set equality of the property names. */
  lemma SamePropertiesIsSetEquality(d: Dto, other: Dto)
    ensures HasSameDefinedPropertiesAs(d, other) <==> DefinedProperties(d) == DefinedProperties(other)
  {
    var mine, theirs := DefinedProperties(d), DefinedProperties(other);
    if HasSameDefinedPropertiesAs(d, other) {
      assert mine <= theirs;
      assert theirs == mine + (theirs - mine);
      assert |theirs| == |mine| + |theirs - mine|;
      assert theirs - mine == {};
    }
  }

  /** hasSameDefinedPropertiesAs is an equivalence: reflexive, symmetric, transitive. */
  lemma SamePropertiesIsEquivalence(a: Dto, b: Dto, c: Dto)
    ensures HasSameDefinedPropertiesAs(a, a)
    ensures HasSameDefinedPropertiesAs(a, b) ==> HasSameDefinedPropertiesAs(b, a)
    ensures HasSameDefinedPropertiesAs(a, b) && HasSameDefinedPropertiesAs(b, c) ==> HasSameDefinedPropertiesAs(a, c)
  {
    SamePropertiesIsSetEquality(a, b);
    SamePropertiesIsSetEquality(b, a);
    SamePropertiesIsSetEquality(b, c);
    SamePropertiesIsSetEquality(a, c);
  }

  /** Writes `value` under `key` into a dictionary-rooted DTO: the keyed store that the
      typed subclasses' setters go through. */
  function SetData(d: Dto, key: string, value: Value): (r: Dto)
    requires d.dataDictionary.Some?
    ensures r.dataDictionary.Some? && r.dataArray == d.dataArray
    ensures DefinedProperties(r) == DefinedProperties(d) + {key}
    ensures r.dataDictionary.value[key] == value
    ensures forall k | k in d.dataDictionary.value && k != key ::
      k in r.dataDictionary.value && r.dataDictionary.value[k] == d.dataDictionary.value[k]
  {
    Dto(Some(d.dataDictionary.value[key := value]), d.dataArray)
  }

  /** Changing the value of an already defined property never changes the outcome of
      hasSameDefinedPropertiesAs. */
  lemma SamePropertiesIgnoresValues(d: Dto, other: Dto, key: string, value: Value)
    requires d.dataDictionary.Some? && key in DefinedProperties(d)
    ensures HasSameDefinedPropertiesAs(SetData(d, key, value), other) <==> HasSameDefinedPropertiesAs(d, other)
  {
    assert DefinedProperties(SetData(d, key, value)) == DefinedProperties(d);
    SamePropertiesIsSetEquality(d, other);
    SamePropertiesIsSetEquality(SetData(d, key, value), other);
  }

  /** Writing a transferable value keeps a DTO well formed. */
  lemma SetDataKeepsWellFormed(d: Dto, key: string, value: Value)
    requires WellFormed(d) && d.dataDictionary.Some? && IsTransferableDataValue(value)
    ensures WellFormed(SetData(d, key, value))
  {
  }

  /** isEmpty is the absence of entries, so a dictionary DTO is empty exactly when it
      defines no property; a property explicitly set to null makes it non-empty. */
  lemma EmptyIffNoProperties(d: Dto, key: string)
    requires d.dataDictionary.Some?
    ensures IsEmpty(d) <==> DefinedProperties(d) == {}
    ensures !IsEmpty(SetData(d, key, Null))
  {
    var m := d.dataDictionary.value;
    if m.Keys == {} {
      assert m == map[];
    }
    assert key in SetData(d, key, Null).dataDictionary.value;
  }
}
