/** The army (team) a player's vehicle belongs to. */
module ArmyEnum {
  import opened Wrappers
  import opened JsonValue
  import opened Failures
  import opened Validation

  /** The members, in declaration order. */
  datatype Army = Air | Ground | Navy

  function Value(a: Army): string
  {
    match a
    case Air => "air"
    case Ground => "ground"
    case Navy => "navy"
  }

  /** Every spelling the enum accepts. */
  const Values: set<string> := {"air", "ground", "navy"}

  /** `ArmyEnum(s)`: the member whose value is exactly `s` (no case folding, no trimming). */
  function Parse(s: string): (r: Result<Army, Failure>)
    ensures r.Ok? <==> s in Values
    ensures r.Ok? ==> Value(r.value) == s
    ensures r.Err? ==> r.error == InvalidEnum("ArmyEnum", JString(s))
  {
    if s == Value(Air) then Ok(Air)
    else if s == Value(Ground) then Ok(Ground)
    else if s == Value(Navy) then Ok(Navy)
    else Err(InvalidEnum("ArmyEnum", JString(s)))
  }

  lemma ParseValue(a: Army)
    ensures Value(a) in Values
    ensures Parse(Value(a)) == Ok(a)
  {
  }

  /** No two members share a value, so Parse is injective on what it accepts. */
  lemma ValueInjective(a: Army, b: Army)
    ensures Value(a) == Value(b) ==> a == b
  {
  }

  lemma RejectsOtherSpellings()
    ensures Parse("space").Err?
    ensures Parse("Air").Err? && Parse(" air").Err? && Parse("AIR").Err?
  {
  }

  /** The member a field of this enum type stores for a value it accepts. */
  function Of(j: Json): Army
  {
    if j.JString? && Parse(j.s).Ok? then Parse(j.s).value else Air
  }

  lemma OfDecodes(j: Json)
    requires Accepts(Required(EnumKind(Values)), j)
    ensures JString(Value(Of(j))) == Canon(Required(EnumKind(Values)), j)
  {
  }
}
