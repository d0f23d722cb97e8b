/**
 * `MapInfoModel`: the geometry of the current map. The five coordinate
 * lists are required lists of floats of any length; `hud_type` and
 * `map_generation` are optional integers; `valid` is required.
 */
module MapInfoSchema {
  import opened Wrappers
  import opened JsonValue
  import opened Failures
  import opened Validation

  /** The fields of MapInfoModel, one constructor each. */
  datatype MapInfoField =
    | GridSize | GridSteps | GridZero | HudType | MapGeneration | MapMax | MapMin | Valid

  /** The fields in declaration order. */
  const Fields: seq<MapInfoField> := [
    GridSize, GridSteps, GridZero, HudType, MapGeneration, MapMax, MapMin, Valid
  ]

  /** The name a field has in the JSON the record is built from and serialised to. */
  function Name(f: MapInfoField): string
  {
    match f
    case GridSize => "grid_size"
    case GridSteps => "grid_steps"
    case GridZero => "grid_zero"
    case HudType => "hud_type"
    case MapGeneration => "map_generation"
    case MapMax => "map_max"
    case MapMin => "map_min"
    case Valid => "valid"
  }

  /** Each field's declared type. */
  function Spec(f: MapInfoField): FieldSpec
  {
    match f
    case GridSize => Required(FloatListKind)
    case GridSteps => Required(FloatListKind)
    case GridZero => Required(FloatListKind)
    case HudType => Optional(IntKind)
    case MapGeneration => Optional(IntKind)
    case MapMax => Required(FloatListKind)
    case MapMin => Required(FloatListKind)
    case Valid => Required(BoolKind)
  }

  datatype MapInfoModel = MapInfoModel(
    grid_size: seq<real>,
    grid_steps: seq<real>,
    grid_zero: seq<real>,
    hud_type: Option<int>,
    map_generation: Option<int>,
    map_max: seq<real>,
    map_min: seq<real>,
    valid: bool
  )

  /** The JSON a record serialises field `f` to. */
  function View(rec: MapInfoModel, f: MapInfoField): Json
  {
    match f
    case GridSize => FloatListJson(rec.grid_size)
    case GridSteps => FloatListJson(rec.grid_steps)
    case GridZero => FloatListJson(rec.grid_zero)
    case HudType => OptIntJson(rec.hud_type)
    case MapGeneration => OptIntJson(rec.map_generation)
    case MapMax => FloatListJson(rec.map_max)
    case MapMin => FloatListJson(rec.map_min)
    case Valid => JBool(rec.valid)
  }

  lemma FieldsComplete(f: MapInfoField)
    ensures f in Fields
  {
  }

  /** No two fields share a name. */
  lemma NameInjective()
    ensures forall f: MapInfoField, g: MapInfoField :: Name(f) == Name(g) ==> f == g
  {
  }

  lemma NamesDistinct(f: MapInfoField, g: MapInfoField)
    ensures Name(f) == Name(g) ==> f == g
  {
    NameInjective();
  }

  /** Every field's value in `m` (None when absent) has the field's declared type. */
  predicate Conforms(m: map<string, Json>)
  {
    forall f :: Accepts(Spec(f), Get(m, Name(f)))
  }

  /** The record built from conforming keyword arguments. */
  function Decode(m: map<string, Json>): MapInfoModel
  {
    MapInfoModel(
      FloatListOf(Get(m, Name(GridSize))),
      FloatListOf(Get(m, Name(GridSteps))),
      FloatListOf(Get(m, Name(GridZero))),
      OptIntOf(Get(m, Name(HudType))),
      OptIntOf(Get(m, Name(MapGeneration))),
      FloatListOf(Get(m, Name(MapMax))),
      FloatListOf(Get(m, Name(MapMin))),
      BoolOf(Get(m, Name(Valid)))
    )
  }

  /** The names of the fields whose value in `m` does not have the declared type. */
  function RejectedNames(m: map<string, Json>): (names: set<string>)
    ensures forall f :: Name(f) in names <==> !Accepts(Spec(f), Get(m, Name(f)))
    ensures names == {} <==> Conforms(m)
  {
    assert forall f :: f in Fields by { forall f { FieldsComplete(f); } }
    var names := set f | f in Fields && !Accepts(Spec(f), Get(m, Name(f))) :: Name(f);
    assert forall f :: Name(f) in names ==> !Accepts(Spec(f), Get(m, Name(f))) by {
      forall f | Name(f) in names
        ensures !Accepts(Spec(f), Get(m, Name(f)))
      {
        var g :| g in Fields && !Accepts(Spec(g), Get(m, Name(g))) && Name(g) == Name(f);
        NamesDistinct(f, g);
      }
    }
    assert !Conforms(m) ==> names != {} by {
      if !Conforms(m) {
        var f :| !Accepts(Spec(f), Get(m, Name(f)));
        assert Name(f) in names;
      }
    }
    names
  }

  /** What a field of the decoded record serialises to, when the field accepts its argument. */
  lemma DecodeView(m: map<string, Json>, f: MapInfoField)
    requires Accepts(Spec(f), Get(m, Name(f)))
    ensures View(Decode(m), f) == Canon(Spec(f), Get(m, Name(f)))
  {
    match f
    case GridSize => DecodesGridSize(m);
    case GridSteps => DecodesGridSteps(m);
    case GridZero => DecodesGridZero(m);
    case HudType => DecodesHudType(m);
    case MapGeneration => DecodesMapGeneration(m);
    case MapMax => DecodesMapMax(m);
    case MapMin => DecodesMapMin(m);
    case Valid => DecodesValid(m);
  }

  lemma DecodesGridSize(m: map<string, Json>)
    requires Accepts(Spec(GridSize), Get(m, Name(GridSize)))
    ensures View(Decode(m), GridSize) == Canon(Spec(GridSize), Get(m, Name(GridSize)))
  {
    FloatListDecodes(Get(m, Name(GridSize)));
  }

  lemma DecodesGridSteps(m: map<string, Json>)
    requires Accepts(Spec(GridSteps), Get(m, Name(GridSteps)))
    ensures View(Decode(m), GridSteps) == Canon(Spec(GridSteps), Get(m, Name(GridSteps)))
  {
    FloatListDecodes(Get(m, Name(GridSteps)));
  }

  lemma DecodesGridZero(m: map<string, Json>)
    requires Accepts(Spec(GridZero), Get(m, Name(GridZero)))
    ensures View(Decode(m), GridZero) == Canon(Spec(GridZero), Get(m, Name(GridZero)))
  {
    FloatListDecodes(Get(m, Name(GridZero)));
  }

  lemma DecodesHudType(m: map<string, Json>)
    requires Accepts(Spec(HudType), Get(m, Name(HudType)))
    ensures View(Decode(m), HudType) == Canon(Spec(HudType), Get(m, Name(HudType)))
  {
    OptIntDecodes(Get(m, Name(HudType)));
  }

  lemma DecodesMapGeneration(m: map<string, Json>)
    requires Accepts(Spec(MapGeneration), Get(m, Name(MapGeneration)))
    ensures View(Decode(m), MapGeneration) == Canon(Spec(MapGeneration), Get(m, Name(MapGeneration)))
  {
    OptIntDecodes(Get(m, Name(MapGeneration)));
  }

  lemma DecodesMapMax(m: map<string, Json>)
    requires Accepts(Spec(MapMax), Get(m, Name(MapMax)))
    ensures View(Decode(m), MapMax) == Canon(Spec(MapMax), Get(m, Name(MapMax)))
  {
    FloatListDecodes(Get(m, Name(MapMax)));
  }

  lemma DecodesMapMin(m: map<string, Json>)
    requires Accepts(Spec(MapMin), Get(m, Name(MapMin)))
    ensures View(Decode(m), MapMin) == Canon(Spec(MapMin), Get(m, Name(MapMin)))
  {
    FloatListDecodes(Get(m, Name(MapMin)));
  }

  lemma DecodesValid(m: map<string, Json>)
    requires Accepts(Spec(Valid), Get(m, Name(Valid)))
    ensures View(Decode(m), Valid) == Canon(Spec(Valid), Get(m, Name(Valid)))
  {
    BoolDecodes(Get(m, Name(Valid)));
  }

  /**
   * `MapInfoModel(**m)`: the record when every field conforms, otherwise a
   * validation error naming every field that does not. Keys of `m` that name
   * no field are ignored.
   */
  function Validate(m: map<string, Json>): (r: Result<MapInfoModel, Failure>)
    ensures r.Ok? <==> Conforms(m)
    ensures r.Ok? ==> forall f :: View(r.value, f) == Canon(Spec(f), Get(m, Name(f)))
    ensures r.Err? ==> r.error.ValidationError? && r.error.model == "MapInfoModel"
    ensures r.Err? ==> forall f :: Name(f) in r.error.fields <==> !Accepts(Spec(f), Get(m, Name(f)))
  {
    if Conforms(m) then
      assert forall f :: View(Decode(m), f) == Canon(Spec(f), Get(m, Name(f))) by {
        forall f { DecodeView(m, f); }
      }
      Ok(Decode(m))
    else Err(ValidationError("MapInfoModel", RejectedNames(m)))
  }

  /** One field of the wrong type is enough for construction to fail, and the error names it. */
  lemma FieldRejected(m: map<string, Json>, f: MapInfoField)
    requires !Accepts(Spec(f), Get(m, Name(f)))
    ensures Validate(m).Err?
    ensures Name(f) in Validate(m).error.fields
  {
  }

  /** Construction reads only the fields' own names: keys of `m` that name no field are ignored. */
  lemma Extensional(m1: map<string, Json>, m2: map<string, Json>)
    requires forall f :: Get(m1, Name(f)) == Get(m2, Name(f))
    ensures Validate(m1) == Validate(m2)
  {
    if Conforms(m1) {
      ViewInjective(Validate(m1).value, Validate(m2).value);
    } else {
      assert RejectedNames(m1) == RejectedNames(m2) by {
        RejectedNamesFrom(m1, m2);
        RejectedNamesFrom(m2, m1);
      }
    }
  }

  lemma RejectedNamesFrom(m1: map<string, Json>, m2: map<string, Json>)
    requires forall f :: Get(m1, Name(f)) == Get(m2, Name(f))
    ensures RejectedNames(m1) <= RejectedNames(m2)
  {
    forall k | k in RejectedNames(m1) ensures k in RejectedNames(m2) {
      var f :| f in Fields && !Accepts(Spec(f), Get(m1, Name(f))) && Name(f) == k;
      assert Get(m1, Name(f)) == Get(m2, Name(f));
    }
  }

  /** A required field that is missing (or null) fails construction, and the error names it. */
  lemma MissingRequiredRejected(m: map<string, Json>, f: MapInfoField)
    requires Spec(f).Required? && Get(m, Name(f)) == JNull
    ensures Validate(m).Err?
    ensures Name(f) in Validate(m).error.fields
  {
    assert !Accepts(Spec(f), JNull);
  }

  /** The keyword arguments a record serialises to: one entry per field. */
  function ToMap(rec: MapInfoModel): (m: map<string, Json>)
    ensures forall f :: Name(f) in m && m[Name(f)] == View(rec, f)
  {
    NameInjective();
    assert forall f :: f in Fields by { forall f { FieldsComplete(f); } }
    map f | f in Fields :: Name(f) := View(rec, f)
  }

  /** A record is determined by what its fields serialise to. */
  lemma ViewInjective(a: MapInfoModel, b: MapInfoModel)
    requires forall f :: View(a, f) == View(b, f)
    ensures a == b
  {
    ViewInjectivePart1(a, b);
    ViewInjectivePart2(a, b);
  }

  lemma ViewInjectivePart1(a: MapInfoModel, b: MapInfoModel)
    requires forall f :: View(a, f) == View(b, f)
    ensures a.grid_size == b.grid_size && a.grid_steps == b.grid_steps && a.grid_zero == b.grid_zero && a.hud_type == b.hud_type
  {
    FloatListRoundTrip(a.grid_size);
    FloatListRoundTrip(b.grid_size);
    assert a.grid_size == b.grid_size by { assert View(a, GridSize) == View(b, GridSize); }
    FloatListRoundTrip(a.grid_steps);
    FloatListRoundTrip(b.grid_steps);
    assert a.grid_steps == b.grid_steps by { assert View(a, GridSteps) == View(b, GridSteps); }
    FloatListRoundTrip(a.grid_zero);
    FloatListRoundTrip(b.grid_zero);
    assert a.grid_zero == b.grid_zero by { assert View(a, GridZero) == View(b, GridZero); }
    assert a.hud_type == b.hud_type by { assert View(a, HudType) == View(b, HudType); }
  }

  lemma ViewInjectivePart2(a: MapInfoModel, b: MapInfoModel)
    requires forall f :: View(a, f) == View(b, f)
    ensures a.map_generation == b.map_generation && a.map_max == b.map_max && a.map_min == b.map_min && a.valid == b.valid
  {
    assert a.map_generation == b.map_generation by { assert View(a, MapGeneration) == View(b, MapGeneration); }
    FloatListRoundTrip(a.map_max);
    FloatListRoundTrip(b.map_max);
    assert a.map_max == b.map_max by { assert View(a, MapMax) == View(b, MapMax); }
    FloatListRoundTrip(a.map_min);
    FloatListRoundTrip(b.map_min);
    assert a.map_min == b.map_min by { assert View(a, MapMin) == View(b, MapMin); }
    assert a.valid == b.valid by { assert View(a, Valid) == View(b, Valid); }
  }

  /** Serialising a record and validating the result gives the record back. */
  lemma RoundTrip(rec: MapInfoModel)
    ensures Validate(ToMap(rec)) == Ok(rec)
  {
    var m := ToMap(rec);
    forall f
      ensures Get(m, Name(f)) == View(rec, f) && Accepts(Spec(f), View(rec, f))
      ensures Canon(Spec(f), View(rec, f)) == View(rec, f)
    {
      ViewCanonical(rec, f);
    }
    ViewInjective(Validate(m).value, rec);
  }

  /** What a field serialises to has the declared type and is already in canonical form. */
  lemma ViewCanonical(rec: MapInfoModel, f: MapInfoField)
    ensures Accepts(Spec(f), View(rec, f))
    ensures Canon(Spec(f), View(rec, f)) == View(rec, f)
  {
    match f
    case GridSize => FloatListRoundTrip(rec.grid_size);
    case GridSteps => FloatListRoundTrip(rec.grid_steps);
    case GridZero => FloatListRoundTrip(rec.grid_zero);
    case MapMax => FloatListRoundTrip(rec.map_max);
    case MapMin => FloatListRoundTrip(rec.map_min);
    case _ =>
  }

  /** The coordinate lists and `valid` are required; `hud_type` and `map_generation` also take None. */
  lemma RequiredFields(f: MapInfoField)
    ensures Spec(f).Required? <==> f !in {HudType, MapGeneration}
    ensures Spec(f) == Required(FloatListKind) <==> f in {GridSize, GridSteps, GridZero, MapMax, MapMin}
  {
  }

  /** A coordinate list may have any length: nothing checks that it is a pair. */
  lemma AnyLengthAccepted(xs: seq<real>)
    ensures Accepts(Spec(GridSize), FloatListJson(xs))
  {
    FloatListRoundTrip(xs);
  }

  /** Integer coordinates are stored as floats: `grid_steps` [5500, 5500] becomes [5500.0, 5500.0]. */
  lemma IntegerStepsBecomeFloats(m: map<string, Json>)
    requires Get(m, "grid_steps") == JArray([JInt(5500), JInt(5500)])
    ensures Validate(m).Ok? ==> Validate(m).value.grid_steps == [5500.0, 5500.0]
  {
    var j := JArray([JInt(5500), JInt(5500)]);
    assert Get(m, Name(GridSteps)) == j;
    if Validate(m).Ok? {
      var xs := Validate(m).value.grid_steps;
      assert FloatListJson(xs) == Canon(Spec(GridSteps), j) by {
        assert View(Validate(m).value, GridSteps) == Canon(Spec(GridSteps), Get(m, Name(GridSteps)));
      }
      FloatListRoundTrip(xs);
      assert Canon(Spec(GridSteps), j).items == [JReal(5500.0), JReal(5500.0)];
      assert FloatListOf(Canon(Spec(GridSteps), j)) == [5500.0, 5500.0];
    }
  }
}
