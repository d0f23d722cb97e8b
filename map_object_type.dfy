/** What a map object is: an aircraft, a ground unit, an airfield or a bombing point. */
module MapObjectTypeEnum {
  import opened Wrappers
  import opened JsonValue
  import opened Failures
  import opened Validation

  /** The members, in declaration order. */
  datatype MapObjectType = Aircraft | GroundModel | Airfield | BombingPoint

  function Value(t: MapObjectType): string
  {
    match t
    case Aircraft => "aircraft"
    case GroundModel => "ground_model"
    case Airfield => "airfield"
    case BombingPoint => "bombing_point"
  }

  /** Every spelling the enum accepts. */
  const Values: set<string> := {"aircraft", "ground_model", "airfield", "bombing_point"}

  /** `MapObjectType(s)`: the member whose value is exactly `s`. */
  function Parse(s: string): (r: Result<MapObjectType, Failure>)
    ensures r.Ok? <==> s in Values
    ensures r.Ok? ==> Value(r.value) == s
    ensures r.Err? ==> r.error == InvalidEnum("MapObjectType", JString(s))
  {
    if s == Value(Aircraft) then Ok(Aircraft)
    else if s == Value(GroundModel) then Ok(GroundModel)
    else if s == Value(Airfield) then Ok(Airfield)
    else if s == Value(BombingPoint) then Ok(BombingPoint)
    else Err(InvalidEnum("MapObjectType", JString(s)))
  }

  /** `MapObjectType(v)` on any decoded JSON value: only a string can equal a member's value. */
  function FromJson(j: Json): (r: Result<MapObjectType, Failure>)
    ensures r.Ok? <==> j.JString? && j.s in Values
    ensures r.Ok? ==> JString(Value(r.value)) == j
    ensures r.Err? ==> r.error == InvalidEnum("MapObjectType", j)
  {
    if j.JString? then Parse(j.s) else Err(InvalidEnum("MapObjectType", j))
  }

  lemma ParseValue(t: MapObjectType)
    ensures Value(t) in Values
    ensures Parse(Value(t)) == Ok(t)
  {
  }

  lemma ValueInjective(a: MapObjectType, b: MapObjectType)
    ensures Value(a) == Value(b) ==> a == b
  {
  }

  /** Case variants are rejected, and so is a missing type (`item.get("type")` gives None). */
  lemma RejectsVariantsAndNull()
    ensures Parse("Aircraft").Err? && Parse("AIRCRAFT").Err? && Parse("ground model").Err?
    ensures FromJson(JNull).Err?
  {
  }

  /** The member a field of this enum type stores for a value it accepts. */
  function Of(j: Json): MapObjectType
  {
    if j.JString? && Parse(j.s).Ok? then Parse(j.s).value else Aircraft
  }

  lemma OfDecodes(j: Json)
    requires Accepts(Required(EnumKind(Values)), j)
    ensures JString(Value(Of(j))) == Canon(Required(EnumKind(Values)), j)
  {
  }
}
