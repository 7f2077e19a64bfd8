/** The three-valued flag of RollbarTriStateFlag.h and its string conversions. */
module TriStateFlag {
  import opened Wrappers

  /** The flag's three enumerators, in declaration order. */
  datatype Flag = FlagNone | FlagOn | FlagOff

  const NoneName: string := "None"
  const OnName: string := "On"
  const OffName: string := "Off"

  /** TriStateFlagToString: every flag has a non-empty name, and the three names differ. */
  function ToString(value: Flag): (s: string)
    ensures |s| > 0
    ensures s == NoneName <==> value == FlagNone
    ensures s == OnName <==> value == FlagOn
    ensures s == OffName <==> value == FlagOff
  {
    match value
    case FlagNone => NoneName
    case FlagOn => OnName
    case FlagOff => OffName
  }

  /** TriStateFlagFromString: total over every string and over nil; a string that names
      no flag, and nil, give the None flag. */
  function FromString(value: Option<string>): (f: Flag)
    ensures f == FlagOn <==> value == Some(OnName)
    ensures f == FlagOff <==> value == Some(OffName)
    ensures f == FlagNone <==> value != Some(OnName) && value != Some(OffName)
  {
    if value == Some(OnName) then FlagOn
    else if value == Some(OffName) then FlagOff
    else FlagNone
  }

  /** Reading back the name of a flag gives the same flag. */
  lemma RoundTrip(value: Flag)
    ensures FromString(Some(ToString(value))) == value
  {
  }

  /** Distinct flags have distinct names; a consequence of the round trip. */
  lemma ToStringInjective(a: Flag, b: Flag)
    requires ToString(a) == ToString(b)
    ensures a == b
  {
    RoundTrip(a);
    RoundTrip(b);
  }

  /** Every string read as a flag and written back is either the flag's own name or
      the input was not a flag name and reads as None. */
  lemma FromStringThenToString(value: Option<string>)
    ensures var f := FromString(value);
      Some(ToString(f)) == value || f == FlagNone
  {
  }
}
