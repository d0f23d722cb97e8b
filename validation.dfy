/**
 * What a record's constructor does with one keyword argument: it checks the
 * value against the field's declared type and converts it. Every record module
 * (StateSchema, IndicatorsSchema, MapObjectSchema, MapInfoSchema) is built from
 * these pieces.
 */
module Validation {
  import opened Wrappers
  import opened JsonValue

  /** A field's declared type. */
  datatype Kind =
    | BoolKind                      // bool
    | StrKind                       // str
    | IntKind                       // int
    | FloatKind                     // float
    | IntListKind                   // List[int]
    | FloatListKind                 // List[float]
    | EnumKind(values: set<string>) // a str-valued Enum, given by its members' values

  /** `T` or `Optional[T]`: an optional field also takes None (JSON null, or an absent key). */
  datatype FieldSpec = Required(kind: Kind) | Optional(kind: Kind)

  predicate IsNumber(j: Json)
  {
    j.JInt? || j.JReal?
  }

  /** The JSON values a field of type `k` takes; a float field takes integers too. */
  predicate Admits(k: Kind, j: Json)
  {
    match k
    case BoolKind => j.JBool?
    case StrKind => j.JString?
    case IntKind => j.JInt?
    case FloatKind => IsNumber(j)
    case IntListKind => j.JArray? && forall x <- j.items :: x.JInt?
    case FloatListKind => j.JArray? && forall x <- j.items :: IsNumber(x)
    case EnumKind(values) => j.JString? && j.s in values
  }

  predicate Accepts(spec: FieldSpec, j: Json)
  {
    match spec
    case Required(k) => Admits(k, j)
    case Optional(k) => j == JNull || Admits(k, j)
  }

  /** An integer stored in a float field becomes a float. */
  function AsFloat(j: Json): Json
  {
    if j.JInt? then JReal(j.i as real) else j
  }

  /** The JSON an accepted value serialises back to once it is stored in a field of type `spec`. */
  function Canon(spec: FieldSpec, j: Json): Json
  {
    match spec.kind
    case FloatKind => AsFloat(j)
    case FloatListKind => if j.JArray? then JArray(seq(|j.items|, i requires 0 <= i < |j.items| => AsFloat(j.items[i]))) else j
    case _ => j
  }

  // Encoders: the JSON a stored value serialises to.

  function FloatListJson(xs: seq<real>): Json
  {
    JArray(seq(|xs|, i requires 0 <= i < |xs| => JReal(xs[i])))
  }

  function IntListJson(xs: seq<int>): Json
  {
    JArray(seq(|xs|, i requires 0 <= i < |xs| => JInt(xs[i])))
  }

  function OptFloatJson(o: Option<real>): Json
  {
    if o.Some? then JReal(o.value) else JNull
  }

  function OptIntJson(o: Option<int>): Json
  {
    if o.Some? then JInt(o.value) else JNull
  }

  function OptStrJson(o: Option<string>): Json
  {
    if o.Some? then JString(o.value) else JNull
  }

  function OptIntListJson(o: Option<seq<int>>): Json
  {
    if o.Some? then IntListJson(o.value) else JNull
  }

  // Decoders: the value a field stores for a JSON value it accepts. They are
  // total (a value the field does not accept decodes to a placeholder that is
  // never stored); the lemmas after them say that storing and serialising gives
  // back the accepted input up to Canon.

  function BoolOf(j: Json): bool
  {
    j.JBool? && j.b
  }

  function StrOf(j: Json): string
  {
    if j.JString? then j.s else ""
  }

  function FloatOf(j: Json): real
  {
    match j
    case JInt(i) => i as real
    case JReal(r) => r
    case _ => 0.0
  }

  function FloatListOf(j: Json): seq<real>
  {
    if j.JArray? then seq(|j.items|, i requires 0 <= i < |j.items| => FloatOf(j.items[i])) else []
  }

  function OptFloatOf(j: Json): Option<real>
  {
    if IsNumber(j) then Some(FloatOf(j)) else None
  }

  function OptIntOf(j: Json): Option<int>
  {
    if j.JInt? then Some(j.i) else None
  }

  function OptStrOf(j: Json): Option<string>
  {
    if j.JString? then Some(j.s) else None
  }

  function OptIntListOf(j: Json): Option<seq<int>>
  {
    if j.JArray? then Some(seq(|j.items|, i requires 0 <= i < |j.items| => if j.items[i].JInt? then j.items[i].i else 0))
    else None
  }

  lemma BoolDecodes(j: Json)
    requires Accepts(Required(BoolKind), j)
    ensures JBool(BoolOf(j)) == Canon(Required(BoolKind), j)
  {
  }

  lemma StrDecodes(j: Json)
    requires Accepts(Required(StrKind), j)
    ensures JString(StrOf(j)) == Canon(Required(StrKind), j)
  {
  }

  lemma FloatListDecodes(j: Json)
    requires Accepts(Required(FloatListKind), j)
    ensures FloatListJson(FloatListOf(j)) == Canon(Required(FloatListKind), j)
  {
    assert forall i :: 0 <= i < |j.items| ==> j.items[i] in j.items;
    assert FloatListJson(FloatListOf(j)).items == Canon(Required(FloatListKind), j).items;
  }

  lemma OptFloatDecodes(j: Json)
    requires Accepts(Optional(FloatKind), j)
    ensures OptFloatJson(OptFloatOf(j)) == Canon(Optional(FloatKind), j)
  {
  }

  lemma OptIntDecodes(j: Json)
    requires Accepts(Optional(IntKind), j)
    ensures OptIntJson(OptIntOf(j)) == Canon(Optional(IntKind), j)
  {
  }

  lemma OptStrDecodes(j: Json)
    requires Accepts(Optional(StrKind), j)
    ensures OptStrJson(OptStrOf(j)) == Canon(Optional(StrKind), j)
  {
  }

  lemma OptIntListDecodes(j: Json)
    requires Accepts(Optional(IntListKind), j)
    ensures OptIntListJson(OptIntListOf(j)) == Canon(Optional(IntListKind), j)
  {
    if j != JNull {
      assert forall i :: 0 <= i < |j.items| ==> j.items[i] in j.items;
      assert IntListJson(OptIntListOf(j).value).items == j.items;
    }
  }

  // Serialised values are accepted again and decode to what was stored.

  lemma FloatListRoundTrip(xs: seq<real>)
    ensures Accepts(Required(FloatListKind), FloatListJson(xs))
    ensures FloatListOf(FloatListJson(xs)) == xs
  {
  }

  lemma OptIntListRoundTrip(o: Option<seq<int>>)
    ensures Accepts(Optional(IntListKind), OptIntListJson(o))
    ensures OptIntListOf(OptIntListJson(o)) == o
  {
    if o.Some? {
      assert OptIntListOf(OptIntListJson(o)).value == o.value;
    }
  }
}
