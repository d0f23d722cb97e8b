/** The icon the game draws for a map object. */
module MapObjectIconEnum {
  import opened Wrappers
  import opened JsonValue
  import opened Failures
  import opened Validation

  /** The members, in declaration order; NoneIcon is the member whose value is "none". */
  datatype MapObjectIcon =
    | Player | Fighter | LightTank | MediumTank | Spaa | TorpedoBoat | Ship | BombingPoint | Boat | NoneIcon

  function Value(i: MapObjectIcon): string
  {
    match i
    case Player => "Player"
    case Fighter => "Fighter"
    case LightTank => "LightTank"
    case MediumTank => "MediumTank"
    case Spaa => "SPAA"
    case TorpedoBoat => "TorpedoBoat"
    case Ship => "Ship"
    case BombingPoint => "bombing_point"
    case Boat => "boat"
    case NoneIcon => "none"
  }

  /** Every spelling the enum accepts. */
  const Values: set<string> :=
    {"Player", "Fighter", "LightTank", "MediumTank", "SPAA", "TorpedoBoat", "Ship", "bombing_point", "boat", "none"}

  /** `MapObjectIcon(s)`: the member whose value is exactly `s`. */
  function Parse(s: string): (r: Result<MapObjectIcon, Failure>)
    ensures r.Ok? <==> s in Values
    ensures r.Ok? ==> Value(r.value) == s
    ensures r.Err? ==> r.error == InvalidEnum("MapObjectIcon", JString(s))
  {
    if s == Value(Player) then Ok(Player)
    else if s == Value(Fighter) then Ok(Fighter)
    else if s == Value(LightTank) then Ok(LightTank)
    else if s == Value(MediumTank) then Ok(MediumTank)
    else if s == Value(Spaa) then Ok(Spaa)
    else if s == Value(TorpedoBoat) then Ok(TorpedoBoat)
    else if s == Value(Ship) then Ok(Ship)
    else if s == Value(BombingPoint) then Ok(BombingPoint)
    else if s == Value(Boat) then Ok(Boat)
    else if s == Value(NoneIcon) then Ok(NoneIcon)
    else Err(InvalidEnum("MapObjectIcon", JString(s)))
  }

  /** `MapObjectIcon(v)` on any decoded JSON value: only a string can equal a member's value. */
  function FromJson(j: Json): (r: Result<MapObjectIcon, Failure>)
    ensures r.Ok? <==> j.JString? && j.s in Values
    ensures r.Ok? ==> JString(Value(r.value)) == j
    ensures r.Err? ==> r.error == InvalidEnum("MapObjectIcon", j)
  {
    if j.JString? then Parse(j.s) else Err(InvalidEnum("MapObjectIcon", j))
  }

  lemma ParseValue(i: MapObjectIcon)
    ensures Value(i) in Values
    ensures Parse(Value(i)) == Ok(i)
  {
  }

  /** The ten values are pairwise distinct. */
  lemma ValueInjective(a: MapObjectIcon, b: MapObjectIcon)
    ensures Value(a) == Value(b) ==> a == b
  {
  }

  /** Matching is exact: "LightTank" and "boat" are members, "lighttank" and "Boat" are not. */
  lemma ExactSpellings()
    ensures Parse("LightTank") == Ok(LightTank) && Parse("lighttank").Err?
    ensures Parse("boat") == Ok(Boat) && Parse("Boat").Err?
    ensures Parse("none") == Ok(NoneIcon) && Parse("None").Err?
  {
  }

  /** What an optional field of this enum type stores for a value it accepts. */
  function OptOf(j: Json): Option<MapObjectIcon>
  {
    if j.JString? && Parse(j.s).Ok? then Some(Parse(j.s).value) else None
  }

  /** What an optional field of this enum type serialises to. */
  function OptJson(o: Option<MapObjectIcon>): Json
  {
    if o.Some? then JString(Value(o.value)) else JNull
  }

  lemma OptOfDecodes(j: Json)
    requires Accepts(Optional(EnumKind(Values)), j)
    ensures OptJson(OptOf(j)) == Canon(Optional(EnumKind(Values)), j)
  {
  }

  lemma OptJsonInjective(a: Option<MapObjectIcon>, b: Option<MapObjectIcon>)
    ensures OptJson(a) == OptJson(b) ==> a == b
  {
    if a.Some? && b.Some? {
      ValueInjective(a.value, b.value);
    }
  }
}
