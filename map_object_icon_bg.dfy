/** The background drawn behind a map object's icon; the game only reports "none". */
module MapObjectIconBgEnum {
  import opened Wrappers
  import opened JsonValue
  import opened Failures
  import opened Validation

  /** The single member, whose value is "none". */
  datatype MapObjectIconBg = NoneBackground

  function Value(b: MapObjectIconBg): string
  {
    match b
    case NoneBackground => "none"
  }

  /** Every spelling the enum accepts. */
  const Values: set<string> := {"none"}

  /** `MapObjectIconBg(s)`: the member whose value is exactly `s`. */
  function Parse(s: string): (r: Result<MapObjectIconBg, Failure>)
    ensures r.Ok? <==> s == "none"
    ensures r.Ok? ==> r.value == NoneBackground && Value(r.value) == s
    ensures r.Err? ==> r.error == InvalidEnum("MapObjectIconBg", JString(s))
  {
    if s == Value(NoneBackground) then Ok(NoneBackground)
    else Err(InvalidEnum("MapObjectIconBg", JString(s)))
  }

  /** `MapObjectIconBg(v)` on any decoded JSON value: only a string can equal the member's value. */
  function FromJson(j: Json): (r: Result<MapObjectIconBg, Failure>)
    ensures r.Ok? <==> j == JString("none")
    ensures r.Ok? ==> JString(Value(r.value)) == j
    ensures r.Err? ==> r.error == InvalidEnum("MapObjectIconBg", j)
  {
    if j.JString? then Parse(j.s) else Err(InvalidEnum("MapObjectIconBg", j))
  }

  lemma ParseValue()
    ensures Parse(Value(NoneBackground)) == Ok(NoneBackground)
  {
  }

  lemma RejectsOtherSpellings()
    ensures Parse("None").Err? && Parse("NONE").Err? && Parse("").Err?
  {
  }

  /** What an optional field of this enum type stores for a value it accepts. */
  function OptOf(j: Json): Option<MapObjectIconBg>
  {
    if j.JString? && Parse(j.s).Ok? then Some(Parse(j.s).value) else None
  }

  /** What an optional field of this enum type serialises to. */
  function OptJson(o: Option<MapObjectIconBg>): Json
  {
    if o.Some? then JString(Value(o.value)) else JNull
  }

  lemma OptOfDecodes(j: Json)
    requires Accepts(Optional(EnumKind(Values)), j)
    ensures OptJson(OptOf(j)) == Canon(Optional(EnumKind(Values)), j)
  {
  }

  lemma OptJsonInjective(a: Option<MapObjectIconBg>, b: Option<MapObjectIconBg>)
    ensures OptJson(a) == OptJson(b) ==> a == b
  {
    if a.Some? && b.Some? {
      assert a.value == NoneBackground == b.value;
    }
  }
}
