/** RollbarPerson.h: a DTO describing the monitored user, with a required ID and an
    optional username and email, and its mutable variant. The person is stored the way
    every typed DTO is, as properties of the DTO's dictionary. */
module Person {
  import opened Wrappers
  import opened DtoBase

  const IdKey: string := "id"
  const UsernameKey: string := "username"
  const EmailKey: string := "email"

  /** The documented length limits of the three fields, counted in characters (Unicode
      scalar values), not in UTF-16 code units. */
  const MaxIdLength: nat := 40
  const MaxUsernameLength: nat := 255
  const MaxEmailLength: nat := 255

  /** A nullable string as a DTO property value: nil is stored as null. */
  function OptionalString(s: Option<string>): Value {
    if s.Some? then Str(s.value) else Null
  }

  /** Reads a nullable string property: a string reads as itself, anything else
      (null, a missing key) as nil. */
  function StringProperty(d: Dto, key: string): Option<string>
    requires d.dataDictionary.Some?
  {
    var m := d.dataDictionary.value;
    if key in m && m[key].Str? then Some(m[key].s) else None
  }

  /** A DTO that is a person: dictionary-rooted, with a string ID. */
  predicate IsPerson(d: Dto) {
    && WellFormed(d)
    && d.dataDictionary.Some?
    && IdKey in d.dataDictionary.value
    && d.dataDictionary.value[IdKey].Str?
  }

  /** The ID getter; never nil for a person. */
  function Id(d: Dto): string
    requires IsPerson(d)
  {
    d.dataDictionary.value[IdKey].s
  }

  /** The username getter; nil when absent. */
  function Username(d: Dto): Option<string>
    requires IsPerson(d)
  {
    StringProperty(d, UsernameKey)
  }

  /** The email getter; nil when absent. */
  function Email(d: Dto): Option<string>
    requires IsPerson(d)
  {
    StringProperty(d, EmailKey)
  }

  /** The documented bounds: an ID of at most 40 characters, a username and an email of
      at most 255 each. */
  predicate WithinDocumentedLimits(d: Dto)
    requires IsPerson(d)
  {
    && |Id(d)| <= MaxIdLength
    && (Username(d).Some? ==> |Username(d).value| <= MaxUsernameLength)
    && (Email(d).Some? ==> |Email(d).value| <= MaxEmailLength)
  }

  /** initWithID:username:email: every field reads back exactly as supplied, and the
      person defines exactly the three properties. */
  function InitWithIdUsernameEmail(id: string, username: Option<string>, email: Option<string>): (p: Dto)
    ensures IsPerson(p) && p.dataArray.None?
    ensures Id(p) == id && Username(p) == username && Email(p) == email
    ensures DefinedProperties(p) == {IdKey, UsernameKey, EmailKey}
  {
    Dto(Some(map[IdKey := Str(id), UsernameKey := OptionalString(username), EmailKey := OptionalString(email)]), None)
  }

  /** initWithID:username: the email is nil. */
  function InitWithIdUsername(id: string, username: Option<string>): (p: Dto)
    ensures IsPerson(p)
    ensures Id(p) == id && Username(p) == username && Email(p) == None
  {
    InitWithIdUsernameEmail(id, username, None)
  }

  /** initWithID:email: the username is nil. */
  function InitWithIdEmail(id: string, email: Option<string>): (p: Dto)
    ensures IsPerson(p)
    ensures Id(p) == id && Username(p) == None && Email(p) == email
  {
    InitWithIdUsernameEmail(id, None, email)
  }

  /** initWithID: username and email are both nil. */
  function InitWithId(id: string): (p: Dto)
    ensures IsPerson(p)
    ensures Id(p) == id && Username(p) == None && Email(p) == None
  {
    InitWithIdUsernameEmail(id, None, None)
  }

  /** A person built from in-bounds arguments is within the documented bounds, and only
      then. */
  lemma InitWithinLimitsIff(id: string, username: Option<string>, email: Option<string>)
    ensures var p := InitWithIdUsernameEmail(id, username, email);
      WithinDocumentedLimits(p) <==>
        && |id| <= MaxIdLength
        && (username.Some? ==> |username.value| <= MaxUsernameLength)
        && (email.Some? ==> |email.value| <= MaxEmailLength)
  {
  }

  /** Any two persons from the initialisers have the same defined properties, whichever
      optional fields were supplied. */
  lemma PersonsShareSchema(id1: string, u1: Option<string>, e1: Option<string>,
                           id2: string, u2: Option<string>, e2: Option<string>)
    ensures HasSameDefinedPropertiesAs(InitWithIdUsernameEmail(id1, u1, e1), InitWithIdUsernameEmail(id2, u2, e2))
  {
    SamePropertiesIsSetEquality(InitWithIdUsernameEmail(id1, u1, e1), InitWithIdUsernameEmail(id2, u2, e2));
  }

  /** RollbarMutablePerson's parameterless init as declared: it is public and takes no
      ID, so the person it leaves behind is the designated initialiser's empty DTO, which
      has no ID although the ID property is declared never nil. */
  function MutableInitWithoutId(): (p: Dto)
    ensures WellFormed(p) && IsEmpty(p)
    ensures !IsPerson(p) && IdKey !in DefinedProperties(p)
  {
    Init()
  }

  /** RollbarMutablePerson: the same DTO dictionary, with writable ID, username and
      email. */
  class MutablePerson {
    var data: Dto

    ghost predicate Valid()
      reads this
    {
      IsPerson(data)
    }

    function GetId(): string
      reads this
      requires Valid()
    {
      Id(data)
    }

    function GetUsername(): Option<string>
      reads this
      requires Valid()
    {
      Username(data)
    }

    function GetEmail(): Option<string>
      reads this
      requires Valid()
    {
      Email(data)
    }

    /** The inherited initWithID:username:email:. */
    constructor (id: string, username: Option<string>, email: Option<string>)
      ensures Valid()
      ensures GetId() == id && GetUsername() == username && GetEmail() == email
    {
      data := InitWithIdUsernameEmail(id, username, email);
    }

    /** Assigning the ID changes only the ID. */
    method SetId(id: string)
      requires Valid()
      modifies this
      ensures Valid()
      ensures GetId() == id && GetUsername() == old(GetUsername()) && GetEmail() == old(GetEmail())
      ensures data == SetData(old(data), IdKey, Str(id))
      ensures HasSameDefinedPropertiesAs(data, old(data))
    {
      SetDataKeepsWellFormed(data, IdKey, Str(id));
      SamePropertiesIsSetEquality(SetData(data, IdKey, Str(id)), data);
      data := SetData(data, IdKey, Str(id));
    }

    /** Assigning the username changes only the username; nil stores null. */
    method SetUsername(username: Option<string>)
      requires Valid()
      modifies this
      ensures Valid()
      ensures GetUsername() == username && GetId() == old(GetId()) && GetEmail() == old(GetEmail())
      ensures data == SetData(old(data), UsernameKey, OptionalString(username))
    {
      SetDataKeepsWellFormed(data, UsernameKey, OptionalString(username));
      data := SetData(data, UsernameKey, OptionalString(username));
    }

    /** Assigning the email changes only the email; nil stores null. */
    method SetEmail(email: Option<string>)
      requires Valid()
      modifies this
      ensures Valid()
      ensures GetEmail() == email && GetId() == old(GetId()) && GetUsername() == old(GetUsername())
      ensures data == SetData(old(data), EmailKey, OptionalString(email))
    {
      SetDataKeepsWellFormed(data, EmailKey, OptionalString(email));
      data := SetData(data, EmailKey, OptionalString(email));
    }
  }
}
