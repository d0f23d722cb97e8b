/**
 * `IndicatorsModel`: the cockpit instruments of the player's vehicle. `valid`,
 * `army` (an ArmyEnum member) and `type` (the vehicle's name, free text) are
 * required; the other twenty-six fields are optional numbers, seven of them
 * integers. The record field for `type` is `vehicle_type`.
 */
module IndicatorsSchema {
  import opened Wrappers
  import opened JsonValue
  import opened Failures
  import opened Validation
  import ArmyEnum

  /** The fields of IndicatorsModel, one constructor each. */
  datatype IndicatorsField =
    | Valid | Army | VehicleType | Speed | Vario | AltitudeHour | AltitudeMin | Altitude10k
    | AviahorizonRoll | AviahorizonPitch | Bank | Turn | Compass | Compass2 | ManifoldPressure
    | Rpm | OilPressure | OilTemperature | HeadTemperature | HeadTemperature1 | Fuel
    | FuelPressure | GearLampDown | GearLampUp | GearLampOff | Blister1 | Blister2 | Blister3
    | Blister4

  /** The fields in declaration order. */
  const Fields: seq<IndicatorsField> := [
    Valid, Army, VehicleType, Speed, Vario, AltitudeHour, AltitudeMin, Altitude10k,
    AviahorizonRoll, AviahorizonPitch, Bank, Turn, Compass, Compass2, ManifoldPressure, Rpm,
    OilPressure, OilTemperature, HeadTemperature, HeadTemperature1, Fuel, FuelPressure,
    GearLampDown, GearLampUp, GearLampOff, Blister1, Blister2, Blister3, Blister4
  ]

  /** The name a field has in the JSON the record is built from and serialised to. */
  function Name(f: IndicatorsField): string
  {
    match f
    case Valid => "valid"
    case Army => "army"
    case VehicleType => "type"
    case Speed => "speed"
    case Vario => "vario"
    case AltitudeHour => "altitude_hour"
    case AltitudeMin => "altitude_min"
    case Altitude10k => "altitude_10k"
    case AviahorizonRoll => "aviahorizon_roll"
    case AviahorizonPitch => "aviahorizon_pitch"
    case Bank => "bank"
    case Turn => "turn"
    case Compass => "compass"
    case Compass2 => "compass2"
    case ManifoldPressure => "manifold_pressure"
    case Rpm => "rpm"
    case OilPressure => "oil_pressure"
    case OilTemperature => "oil_temperature"
    case HeadTemperature => "head_temperature"
    case HeadTemperature1 => "head_temperature1"
    case Fuel => "fuel"
    case FuelPressure => "fuel_pressure"
    case GearLampDown => "gear_lamp_down"
    case GearLampUp => "gear_lamp_up"
    case GearLampOff => "gear_lamp_off"
    case Blister1 => "blister1"
    case Blister2 => "blister2"
    case Blister3 => "blister3"
    case Blister4 => "blister4"
  }

  /** Each field's declared type. */
  function Spec(f: IndicatorsField): FieldSpec
  {
    match f
    case Valid => Required(BoolKind)
    case Army => Required(EnumKind(ArmyEnum.Values))
    case VehicleType => Required(StrKind)
    case Speed => Optional(FloatKind)
    case Vario => Optional(FloatKind)
    case AltitudeHour => Optional(FloatKind)
    case AltitudeMin => Optional(FloatKind)
    case Altitude10k => Optional(FloatKind)
    case AviahorizonRoll => Optional(FloatKind)
    case AviahorizonPitch => Optional(FloatKind)
    case Bank => Optional(FloatKind)
    case Turn => Optional(FloatKind)
    case Compass => Optional(FloatKind)
    case Compass2 => Optional(FloatKind)
    case ManifoldPressure => Optional(FloatKind)
    case Rpm => Optional(FloatKind)
    case OilPressure => Optional(FloatKind)
    case OilTemperature => Optional(FloatKind)
    case HeadTemperature => Optional(FloatKind)
    case HeadTemperature1 => Optional(FloatKind)
    case Fuel => Optional(FloatKind)
    case FuelPressure => Optional(FloatKind)
    case GearLampDown => Optional(IntKind)
    case GearLampUp => Optional(IntKind)
    case GearLampOff => Optional(IntKind)
    case Blister1 => Optional(IntKind)
    case Blister2 => Optional(IntKind)
    case Blister3 => Optional(IntKind)
    case Blister4 => Optional(IntKind)
  }

  datatype IndicatorsModel = IndicatorsModel(
    valid: bool,
    army: ArmyEnum.Army,
    vehicle_type: string,
    speed: Option<real>,
    vario: Option<real>,
    altitude_hour: Option<real>,
    altitude_min: Option<real>,
    altitude_10k: Option<real>,
    aviahorizon_roll: Option<real>,
    aviahorizon_pitch: Option<real>,
    bank: Option<real>,
    turn: Option<real>,
    compass: Option<real>,
    compass2: Option<real>,
    manifold_pressure: Option<real>,
    rpm: Option<real>,
    oil_pressure: Option<real>,
    oil_temperature: Option<real>,
    head_temperature: Option<real>,
    head_temperature1: Option<real>,
    fuel: Option<real>,
    fuel_pressure: Option<real>,
    gear_lamp_down: Option<int>,
    gear_lamp_up: Option<int>,
    gear_lamp_off: Option<int>,
    blister1: Option<int>,
    blister2: Option<int>,
    blister3: Option<int>,
    blister4: Option<int>
  )

  /** The JSON a record serialises field `f` to. */
  function View(rec: IndicatorsModel, f: IndicatorsField): Json
  {
    match f
    case Valid => JBool(rec.valid)
    case Army => JString(ArmyEnum.Value(rec.army))
    case VehicleType => JString(rec.vehicle_type)
    case Speed => OptFloatJson(rec.speed)
    case Vario => OptFloatJson(rec.vario)
    case AltitudeHour => OptFloatJson(rec.altitude_hour)
    case AltitudeMin => OptFloatJson(rec.altitude_min)
    case Altitude10k => OptFloatJson(rec.altitude_10k)
    case AviahorizonRoll => OptFloatJson(rec.aviahorizon_roll)
    case AviahorizonPitch => OptFloatJson(rec.aviahorizon_pitch)
    case Bank => OptFloatJson(rec.bank)
    case Turn => OptFloatJson(rec.turn)
    case Compass => OptFloatJson(rec.compass)
    case Compass2 => OptFloatJson(rec.compass2)
    case ManifoldPressure => OptFloatJson(rec.manifold_pressure)
    case Rpm => OptFloatJson(rec.rpm)
    case OilPressure => OptFloatJson(rec.oil_pressure)
    case OilTemperature => OptFloatJson(rec.oil_temperature)
    case HeadTemperature => OptFloatJson(rec.head_temperature)
    case HeadTemperature1 => OptFloatJson(rec.head_temperature1)
    case Fuel => OptFloatJson(rec.fuel)
    case FuelPressure => OptFloatJson(rec.fuel_pressure)
    case GearLampDown => OptIntJson(rec.gear_lamp_down)
    case GearLampUp => OptIntJson(rec.gear_lamp_up)
    case GearLampOff => OptIntJson(rec.gear_lamp_off)
    case Blister1 => OptIntJson(rec.blister1)
    case Blister2 => OptIntJson(rec.blister2)
    case Blister3 => OptIntJson(rec.blister3)
    case Blister4 => OptIntJson(rec.blister4)
  }

  lemma FieldsComplete(f: IndicatorsField)
    ensures f in Fields
  {
  }

  /** No two fields share a name. */
  lemma NameInjective()
    ensures forall f: IndicatorsField, g: IndicatorsField :: Name(f) == Name(g) ==> f == g
  {
  }

  lemma NamesDistinct(f: IndicatorsField, g: IndicatorsField)
    ensures Name(f) == Name(g) ==> f == g
  {
    NameInjective();
  }

  /** Every field's value in `m` (None when absent) has the field's declared type. */
  predicate Conforms(m: map<string, Json>)
  {
    forall f :: Accepts(Spec(f), Get(m, Name(f)))
  }

  /** The record built from conforming keyword arguments. */
  function Decode(m: map<string, Json>): IndicatorsModel
  {
    IndicatorsModel(
      BoolOf(Get(m, Name(Valid))),
      ArmyEnum.Of(Get(m, Name(Army))),
      StrOf(Get(m, Name(VehicleType))),
      OptFloatOf(Get(m, Name(Speed))),
      OptFloatOf(Get(m, Name(Vario))),
      OptFloatOf(Get(m, Name(AltitudeHour))),
      OptFloatOf(Get(m, Name(AltitudeMin))),
      OptFloatOf(Get(m, Name(Altitude10k))),
      OptFloatOf(Get(m, Name(AviahorizonRoll))),
      OptFloatOf(Get(m, Name(AviahorizonPitch))),
      OptFloatOf(Get(m, Name(Bank))),
      OptFloatOf(Get(m, Name(Turn))),
      OptFloatOf(Get(m, Name(Compass))),
      OptFloatOf(Get(m, Name(Compass2))),
      OptFloatOf(Get(m, Name(ManifoldPressure))),
      OptFloatOf(Get(m, Name(Rpm))),
      OptFloatOf(Get(m, Name(OilPressure))),
      OptFloatOf(Get(m, Name(OilTemperature))),
      OptFloatOf(Get(m, Name(HeadTemperature))),
      OptFloatOf(Get(m, Name(HeadTemperature1))),
      OptFloatOf(Get(m, Name(Fuel))),
      OptFloatOf(Get(m, Name(FuelPressure))),
      OptIntOf(Get(m, Name(GearLampDown))),
      OptIntOf(Get(m, Name(GearLampUp))),
      OptIntOf(Get(m, Name(GearLampOff))),
      OptIntOf(Get(m, Name(Blister1))),
      OptIntOf(Get(m, Name(Blister2))),
      OptIntOf(Get(m, Name(Blister3))),
      OptIntOf(Get(m, Name(Blister4)))
    )
  }

  /** The names of the fields whose value in `m` does not have the declared type. */
  function RejectedNames(m: map<string, Json>): (names: set<string>)
    ensures forall f :: Name(f) in names <==> !Accepts(Spec(f), Get(m, Name(f)))
    ensures names == {} <==> Conforms(m)
  {
    assert forall f :: f in Fields by { forall f { FieldsComplete(f); } }
    var names := set f | f in Fields && !Accepts(Spec(f), Get(m, Name(f))) :: Name(f);
    assert forall f :: Name(f) in names ==> !Accepts(Spec(f), Get(m, Name(f))) by {
      forall f | Name(f) in names
        ensures !Accepts(Spec(f), Get(m, Name(f)))
      {
        var g :| g in Fields && !Accepts(Spec(g), Get(m, Name(g))) && Name(g) == Name(f);
        NamesDistinct(f, g);
      }
    }
    assert !Conforms(m) ==> names != {} by {
      if !Conforms(m) {
        var f :| !Accepts(Spec(f), Get(m, Name(f)));
        assert Name(f) in names;
      }
    }
    names
  }

  /** What a field of the decoded record serialises to, when the field accepts its argument. */
  lemma DecodeView(m: map<string, Json>, f: IndicatorsField)
    requires Accepts(Spec(f), Get(m, Name(f)))
    ensures View(Decode(m), f) == Canon(Spec(f), Get(m, Name(f)))
  {
    match f
    case Valid => DecodesValid(m);
    case Army => DecodesArmy(m);
    case VehicleType => DecodesVehicleType(m);
    case Speed => DecodesSpeed(m);
    case Vario => DecodesVario(m);
    case AltitudeHour => DecodesAltitudeHour(m);
    case AltitudeMin => DecodesAltitudeMin(m);
    case Altitude10k => DecodesAltitude10k(m);
    case AviahorizonRoll => DecodesAviahorizonRoll(m);
    case AviahorizonPitch => DecodesAviahorizonPitch(m);
    case Bank => DecodesBank(m);
    case Turn => DecodesTurn(m);
    case Compass => DecodesCompass(m);
    case Compass2 => DecodesCompass2(m);
    case ManifoldPressure => DecodesManifoldPressure(m);
    case Rpm => DecodesRpm(m);
    case OilPressure => DecodesOilPressure(m);
    case OilTemperature => DecodesOilTemperature(m);
    case HeadTemperature => DecodesHeadTemperature(m);
    case HeadTemperature1 => DecodesHeadTemperature1(m);
    case Fuel => DecodesFuel(m);
    case FuelPressure => DecodesFuelPressure(m);
    case GearLampDown => DecodesGearLampDown(m);
    case GearLampUp => DecodesGearLampUp(m);
    case GearLampOff => DecodesGearLampOff(m);
    case Blister1 => DecodesBlister1(m);
    case Blister2 => DecodesBlister2(m);
    case Blister3 => DecodesBlister3(m);
    case Blister4 => DecodesBlister4(m);
  }

  lemma DecodesValid(m: map<string, Json>)
    requires Accepts(Spec(Valid), Get(m, Name(Valid)))
    ensures View(Decode(m), Valid) == Canon(Spec(Valid), Get(m, Name(Valid)))
  {
    BoolDecodes(Get(m, Name(Valid)));
  }

  lemma DecodesArmy(m: map<string, Json>)
    requires Accepts(Spec(Army), Get(m, Name(Army)))
    ensures View(Decode(m), Army) == Canon(Spec(Army), Get(m, Name(Army)))
  {
    ArmyEnum.OfDecodes(Get(m, Name(Army)));
  }

  lemma DecodesVehicleType(m: map<string, Json>)
    requires Accepts(Spec(VehicleType), Get(m, Name(VehicleType)))
    ensures View(Decode(m), VehicleType) == Canon(Spec(VehicleType), Get(m, Name(VehicleType)))
  {
    StrDecodes(Get(m, Name(VehicleType)));
  }

  lemma DecodesSpeed(m: map<string, Json>)
    requires Accepts(Spec(Speed), Get(m, Name(Speed)))
    ensures View(Decode(m), Speed) == Canon(Spec(Speed), Get(m, Name(Speed)))
  {
    OptFloatDecodes(Get(m, Name(Speed)));
  }

  lemma DecodesVario(m: map<string, Json>)
    requires Accepts(Spec(Vario), Get(m, Name(Vario)))
    ensures View(Decode(m), Vario) == Canon(Spec(Vario), Get(m, Name(Vario)))
  {
    OptFloatDecodes(Get(m, Name(Vario)));
  }

  lemma DecodesAltitudeHour(m: map<string, Json>)
    requires Accepts(Spec(AltitudeHour), Get(m, Name(AltitudeHour)))
    ensures View(Decode(m), AltitudeHour) == Canon(Spec(AltitudeHour), Get(m, Name(AltitudeHour)))
  {
    OptFloatDecodes(Get(m, Name(AltitudeHour)));
  }

  lemma DecodesAltitudeMin(m: map<string, Json>)
    requires Accepts(Spec(AltitudeMin), Get(m, Name(AltitudeMin)))
    ensures View(Decode(m), AltitudeMin) == Canon(Spec(AltitudeMin), Get(m, Name(AltitudeMin)))
  {
    OptFloatDecodes(Get(m, Name(AltitudeMin)));
  }

  lemma DecodesAltitude10k(m: map<string, Json>)
    requires Accepts(Spec(Altitude10k), Get(m, Name(Altitude10k)))
    ensures View(Decode(m), Altitude10k) == Canon(Spec(Altitude10k), Get(m, Name(Altitude10k)))
  {
    OptFloatDecodes(Get(m, Name(Altitude10k)));
  }

  lemma DecodesAviahorizonRoll(m: map<string, Json>)
    requires Accepts(Spec(AviahorizonRoll), Get(m, Name(AviahorizonRoll)))
    ensures View(Decode(m), AviahorizonRoll) == Canon(Spec(AviahorizonRoll), Get(m, Name(AviahorizonRoll)))
  {
    OptFloatDecodes(Get(m, Name(AviahorizonRoll)));
  }

  lemma DecodesAviahorizonPitch(m: map<string, Json>)
    requires Accepts(Spec(AviahorizonPitch), Get(m, Name(AviahorizonPitch)))
    ensures View(Decode(m), AviahorizonPitch) == Canon(Spec(AviahorizonPitch), Get(m, Name(AviahorizonPitch)))
  {
    OptFloatDecodes(Get(m, Name(AviahorizonPitch)));
  }

  lemma DecodesBank(m: map<string, Json>)
    requires Accepts(Spec(Bank), Get(m, Name(Bank)))
    ensures View(Decode(m), Bank) == Canon(Spec(Bank), Get(m, Name(Bank)))
  {
    OptFloatDecodes(Get(m, Name(Bank)));
  }

  lemma DecodesTurn(m: map<string, Json>)
    requires Accepts(Spec(Turn), Get(m, Name(Turn)))
    ensures View(Decode(m), Turn) == Canon(Spec(Turn), Get(m, Name(Turn)))
  {
    OptFloatDecodes(Get(m, Name(Turn)));
  }

  lemma DecodesCompass(m: map<string, Json>)
    requires Accepts(Spec(Compass), Get(m, Name(Compass)))
    ensures View(Decode(m), Compass) == Canon(Spec(Compass), Get(m, Name(Compass)))
  {
    OptFloatDecodes(Get(m, Name(Compass)));
  }

  lemma DecodesCompass2(m: map<string, Json>)
    requires Accepts(Spec(Compass2), Get(m, Name(Compass2)))
    ensures View(Decode(m), Compass2) == Canon(Spec(Compass2), Get(m, Name(Compass2)))
  {
    OptFloatDecodes(Get(m, Name(Compass2)));
  }

  lemma DecodesManifoldPressure(m: map<string, Json>)
    requires Accepts(Spec(ManifoldPressure), Get(m, Name(ManifoldPressure)))
    ensures View(Decode(m), ManifoldPressure) == Canon(Spec(ManifoldPressure), Get(m, Name(ManifoldPressure)))
  {
    OptFloatDecodes(Get(m, Name(ManifoldPressure)));
  }

  lemma DecodesRpm(m: map<string, Json>)
    requires Accepts(Spec(Rpm), Get(m, Name(Rpm)))
    ensures View(Decode(m), Rpm) == Canon(Spec(Rpm), Get(m, Name(Rpm)))
  {
    OptFloatDecodes(Get(m, Name(Rpm)));
  }

  lemma DecodesOilPressure(m: map<string, Json>)
    requires Accepts(Spec(OilPressure), Get(m, Name(OilPressure)))
    ensures View(Decode(m), OilPressure) == Canon(Spec(OilPressure), Get(m, Name(OilPressure)))
  {
    OptFloatDecodes(Get(m, Name(OilPressure)));
  }

  lemma DecodesOilTemperature(m: map<string, Json>)
    requires Accepts(Spec(OilTemperature), Get(m, Name(OilTemperature)))
    ensures View(Decode(m), OilTemperature) == Canon(Spec(OilTemperature), Get(m, Name(OilTemperature)))
  {
    OptFloatDecodes(Get(m, Name(OilTemperature)));
  }

  lemma DecodesHeadTemperature(m: map<string, Json>)
    requires Accepts(Spec(HeadTemperature), Get(m, Name(HeadTemperature)))
    ensures View(Decode(m), HeadTemperature) == Canon(Spec(HeadTemperature), Get(m, Name(HeadTemperature)))
  {
    OptFloatDecodes(Get(m, Name(HeadTemperature)));
  }

  lemma DecodesHeadTemperature1(m: map<string, Json>)
    requires Accepts(Spec(HeadTemperature1), Get(m, Name(HeadTemperature1)))
    ensures View(Decode(m), HeadTemperature1) == Canon(Spec(HeadTemperature1), Get(m, Name(HeadTemperature1)))
  {
    OptFloatDecodes(Get(m, Name(HeadTemperature1)));
  }

  lemma DecodesFuel(m: map<string, Json>)
    requires Accepts(Spec(Fuel), Get(m, Name(Fuel)))
    ensures View(Decode(m), Fuel) == Canon(Spec(Fuel), Get(m, Name(Fuel)))
  {
    OptFloatDecodes(Get(m, Name(Fuel)));
  }

  lemma DecodesFuelPressure(m: map<string, Json>)
    requires Accepts(Spec(FuelPressure), Get(m, Name(FuelPressure)))
    ensures View(Decode(m), FuelPressure) == Canon(Spec(FuelPressure), Get(m, Name(FuelPressure)))
  {
    OptFloatDecodes(Get(m, Name(FuelPressure)));
  }

  lemma DecodesGearLampDown(m: map<string, Json>)
    requires Accepts(Spec(GearLampDown), Get(m, Name(GearLampDown)))
    ensures View(Decode(m), GearLampDown) == Canon(Spec(GearLampDown), Get(m, Name(GearLampDown)))
  {
    OptIntDecodes(Get(m, Name(GearLampDown)));
  }

  lemma DecodesGearLampUp(m: map<string, Json>)
    requires Accepts(Spec(GearLampUp), Get(m, Name(GearLampUp)))
    ensures View(Decode(m), GearLampUp) == Canon(Spec(GearLampUp), Get(m, Name(GearLampUp)))
  {
    OptIntDecodes(Get(m, Name(GearLampUp)));
  }

  lemma DecodesGearLampOff(m: map<string, Json>)
    requires Accepts(Spec(GearLampOff), Get(m, Name(GearLampOff)))
    ensures View(Decode(m), GearLampOff) == Canon(Spec(GearLampOff), Get(m, Name(GearLampOff)))
  {
    OptIntDecodes(Get(m, Name(GearLampOff)));
  }

  lemma DecodesBlister1(m: map<string, Json>)
    requires Accepts(Spec(Blister1), Get(m, Name(Blister1)))
    ensures View(Decode(m), Blister1) == Canon(Spec(Blister1), Get(m, Name(Blister1)))
  {
    OptIntDecodes(Get(m, Name(Blister1)));
  }

  lemma DecodesBlister2(m: map<string, Json>)
    requires Accepts(Spec(Blister2), Get(m, Name(Blister2)))
    ensures View(Decode(m), Blister2) == Canon(Spec(Blister2), Get(m, Name(Blister2)))
  {
    OptIntDecodes(Get(m, Name(Blister2)));
  }

  lemma DecodesBlister3(m: map<string, Json>)
    requires Accepts(Spec(Blister3), Get(m, Name(Blister3)))
    ensures View(Decode(m), Blister3) == Canon(Spec(Blister3), Get(m, Name(Blister3)))
  {
    OptIntDecodes(Get(m, Name(Blister3)));
  }

  lemma DecodesBlister4(m: map<string, Json>)
    requires Accepts(Spec(Blister4), Get(m, Name(Blister4)))
    ensures View(Decode(m), Blister4) == Canon(Spec(Blister4), Get(m, Name(Blister4)))
  {
    OptIntDecodes(Get(m, Name(Blister4)));
  }

  /**
   * `IndicatorsModel(**m)`: the record when every field conforms, otherwise a
   * validation error naming every field that does not. Keys of `m` that name
   * no field are ignored.
   */
  function Validate(m: map<string, Json>): (r: Result<IndicatorsModel, Failure>)
    ensures r.Ok? <==> Conforms(m)
    ensures r.Ok? ==> forall f :: View(r.value, f) == Canon(Spec(f), Get(m, Name(f)))
    ensures r.Err? ==> r.error.ValidationError? && r.error.model == "IndicatorsModel"
    ensures r.Err? ==> forall f :: Name(f) in r.error.fields <==> !Accepts(Spec(f), Get(m, Name(f)))
  {
    if Conforms(m) then
      assert forall f :: View(Decode(m), f) == Canon(Spec(f), Get(m, Name(f))) by {
        forall f { DecodeView(m, f); }
      }
      Ok(Decode(m))
    else Err(ValidationError("IndicatorsModel", RejectedNames(m)))
  }

  /** One field of the wrong type is enough for construction to fail, and the error names it. */
  lemma FieldRejected(m: map<string, Json>, f: IndicatorsField)
    requires !Accepts(Spec(f), Get(m, Name(f)))
    ensures Validate(m).Err?
    ensures Name(f) in Validate(m).error.fields
  {
  }

  /** Construction reads only the fields' own names: keys of `m` that name no field are ignored. */
  lemma Extensional(m1: map<string, Json>, m2: map<string, Json>)
    requires forall f :: Get(m1, Name(f)) == Get(m2, Name(f))
    ensures Validate(m1) == Validate(m2)
  {
    if Conforms(m1) {
      ViewInjective(Validate(m1).value, Validate(m2).value);
    } else {
      assert RejectedNames(m1) == RejectedNames(m2) by {
        RejectedNamesFrom(m1, m2);
        RejectedNamesFrom(m2, m1);
      }
    }
  }

  lemma RejectedNamesFrom(m1: map<string, Json>, m2: map<string, Json>)
    requires forall f :: Get(m1, Name(f)) == Get(m2, Name(f))
    ensures RejectedNames(m1) <= RejectedNames(m2)
  {
    forall k | k in RejectedNames(m1) ensures k in RejectedNames(m2) {
      var f :| f in Fields && !Accepts(Spec(f), Get(m1, Name(f))) && Name(f) == k;
      assert Get(m1, Name(f)) == Get(m2, Name(f));
    }
  }

  /** A required field that is missing (or null) fails construction, and the error names it. */
  lemma MissingRequiredRejected(m: map<string, Json>, f: IndicatorsField)
    requires Spec(f).Required? && Get(m, Name(f)) == JNull
    ensures Validate(m).Err?
    ensures Name(f) in Validate(m).error.fields
  {
    assert !Accepts(Spec(f), JNull);
  }

  /** The keyword arguments a record serialises to: one entry per field. */
  function ToMap(rec: IndicatorsModel): (m: map<string, Json>)
    ensures forall f :: Name(f) in m && m[Name(f)] == View(rec, f)
  {
    NameInjective();
    assert forall f :: f in Fields by { forall f { FieldsComplete(f); } }
    map f | f in Fields :: Name(f) := View(rec, f)
  }

  /** A record is determined by what its fields serialise to. */
  lemma ViewInjective(a: IndicatorsModel, b: IndicatorsModel)
    requires forall f :: View(a, f) == View(b, f)
    ensures a == b
  {
    ViewInjectivePart1(a, b);
    ViewInjectivePart2(a, b);
    ViewInjectivePart3(a, b);
    ViewInjectivePart4(a, b);
    ViewInjectivePart5(a, b);
    ViewInjectivePart6(a, b);
    ViewInjectivePart7(a, b);
    ViewInjectivePart8(a, b);
  }

  lemma ViewInjectivePart1(a: IndicatorsModel, b: IndicatorsModel)
    requires forall f :: View(a, f) == View(b, f)
    ensures a.valid == b.valid && a.army == b.army && a.vehicle_type == b.vehicle_type && a.speed == b.speed
  {
    assert a.valid == b.valid by { assert View(a, Valid) == View(b, Valid); }
    assert a.army == b.army by { assert View(a, Army) == View(b, Army); ArmyEnum.ValueInjective(a.army, b.army); }
    assert a.vehicle_type == b.vehicle_type by { assert View(a, VehicleType) == View(b, VehicleType); }
    assert a.speed == b.speed by { assert View(a, Speed) == View(b, Speed); }
  }

  lemma ViewInjectivePart2(a: IndicatorsModel, b: IndicatorsModel)
    requires forall f :: View(a, f) == View(b, f)
    ensures a.vario == b.vario && a.altitude_hour == b.altitude_hour && a.altitude_min == b.altitude_min && a.altitude_10k == b.altitude_10k
  {
    assert a.vario == b.vario by { assert View(a, Vario) == View(b, Vario); }
    assert a.altitude_hour == b.altitude_hour by { assert View(a, AltitudeHour) == View(b, AltitudeHour); }
    assert a.altitude_min == b.altitude_min by { assert View(a, AltitudeMin) == View(b, AltitudeMin); }
    assert a.altitude_10k == b.altitude_10k by { assert View(a, Altitude10k) == View(b, Altitude10k); }
  }

  lemma ViewInjectivePart3(a: IndicatorsModel, b: IndicatorsModel)
    requires forall f :: View(a, f) == View(b, f)
    ensures a.aviahorizon_roll == b.aviahorizon_roll && a.aviahorizon_pitch == b.aviahorizon_pitch && a.bank == b.bank && a.turn == b.turn
  {
    assert a.aviahorizon_roll == b.aviahorizon_roll by { assert View(a, AviahorizonRoll) == View(b, AviahorizonRoll); }
    assert a.aviahorizon_pitch == b.aviahorizon_pitch by { assert View(a, AviahorizonPitch) == View(b, AviahorizonPitch); }
    assert a.bank == b.bank by { assert View(a, Bank) == View(b, Bank); }
    assert a.turn == b.turn by { assert View(a, Turn) == View(b, Turn); }
  }

  lemma ViewInjectivePart4(a: IndicatorsModel, b: IndicatorsModel)
    requires forall f :: View(a, f) == View(b, f)
    ensures a.compass == b.compass && a.compass2 == b.compass2 && a.manifold_pressure == b.manifold_pressure && a.rpm == b.rpm
  {
    assert a.compass == b.compass by { assert View(a, Compass) == View(b, Compass); }
    assert a.compass2 == b.compass2 by { assert View(a, Compass2) == View(b, Compass2); }
    assert a.manifold_pressure == b.manifold_pressure by { assert View(a, ManifoldPressure) == View(b, ManifoldPressure); }
    assert a.rpm == b.rpm by { assert View(a, Rpm) == View(b, Rpm); }
  }

  lemma ViewInjectivePart5(a: IndicatorsModel, b: IndicatorsModel)
    requires forall f :: View(a, f) == View(b, f)
    ensures a.oil_pressure == b.oil_pressure && a.oil_temperature == b.oil_temperature && a.head_temperature == b.head_temperature && a.head_temperature1 == b.head_temperature1
  {
    assert a.oil_pressure == b.oil_pressure by { assert View(a, OilPressure) == View(b, OilPressure); }
    assert a.oil_temperature == b.oil_temperature by { assert View(a, OilTemperature) == View(b, OilTemperature); }
    assert a.head_temperature == b.head_temperature by { assert View(a, HeadTemperature) == View(b, HeadTemperature); }
    assert a.head_temperature1 == b.head_temperature1 by { assert View(a, HeadTemperature1) == View(b, HeadTemperature1); }
  }

  lemma ViewInjectivePart6(a: IndicatorsModel, b: IndicatorsModel)
    requires forall f :: View(a, f) == View(b, f)
    ensures a.fuel == b.fuel && a.fuel_pressure == b.fuel_pressure && a.gear_lamp_down == b.gear_lamp_down && a.gear_lamp_up == b.gear_lamp_up
  {
    assert a.fuel == b.fuel by { assert View(a, Fuel) == View(b, Fuel); }
    assert a.fuel_pressure == b.fuel_pressure by { assert View(a, FuelPressure) == View(b, FuelPressure); }
    assert a.gear_lamp_down == b.gear_lamp_down by { assert View(a, GearLampDown) == View(b, GearLampDown); }
    assert a.gear_lamp_up == b.gear_lamp_up by { assert View(a, GearLampUp) == View(b, GearLampUp); }
  }

  lemma ViewInjectivePart7(a: IndicatorsModel, b: IndicatorsModel)
    requires forall f :: View(a, f) == View(b, f)
    ensures a.gear_lamp_off == b.gear_lamp_off && a.blister1 == b.blister1 && a.blister2 == b.blister2 && a.blister3 == b.blister3
  {
    assert a.gear_lamp_off == b.gear_lamp_off by { assert View(a, GearLampOff) == View(b, GearLampOff); }
    assert a.blister1 == b.blister1 by { assert View(a, Blister1) == View(b, Blister1); }
    assert a.blister2 == b.blister2 by { assert View(a, Blister2) == View(b, Blister2); }
    assert a.blister3 == b.blister3 by { assert View(a, Blister3) == View(b, Blister3); }
  }

  lemma ViewInjectivePart8(a: IndicatorsModel, b: IndicatorsModel)
    requires forall f :: View(a, f) == View(b, f)
    ensures a.blister4 == b.blister4
  {
    assert a.blister4 == b.blister4 by { assert View(a, Blister4) == View(b, Blister4); }
  }

  /** Serialising a record and validating the result gives the record back. */
  lemma RoundTrip(rec: IndicatorsModel)
    ensures Validate(ToMap(rec)) == Ok(rec)
  {
    var m := ToMap(rec);
    forall f
      ensures Get(m, Name(f)) == View(rec, f) && Accepts(Spec(f), View(rec, f))
      ensures Canon(Spec(f), View(rec, f)) == View(rec, f)
    {
      ViewCanonical(rec, f);
    }
    ViewInjective(Validate(m).value, rec);
  }

  /** What a field serialises to has the declared type and is already in canonical form. */
  lemma ViewCanonical(rec: IndicatorsModel, f: IndicatorsField)
    ensures Accepts(Spec(f), View(rec, f))
    ensures Canon(Spec(f), View(rec, f)) == View(rec, f)
  {
    match f
    case Army => ArmyEnum.ParseValue(rec.army);
    case _ =>
  }

  /** `valid`, `army` and `type` are required; every other field also takes None. */
  lemma RequiredFields(f: IndicatorsField)
    ensures Spec(f).Required? <==> f in {Valid, Army, VehicleType}
    ensures f !in {Valid, Army, VehicleType} ==> Accepts(Spec(f), JNull)
  {
  }

  /** The gear lamps and the four blisters are the integer fields; the other optional fields are floats. */
  lemma IntegerFields(f: IndicatorsField)
    ensures Spec(f) == Optional(IntKind) <==>
      f in {GearLampDown, GearLampUp, GearLampOff, Blister1, Blister2, Blister3, Blister4}
    ensures f !in {Valid, Army, VehicleType, GearLampDown, GearLampUp, GearLampOff, Blister1, Blister2, Blister3, Blister4}
      ==> Spec(f) == Optional(FloatKind)
  {
  }

  /** The record holding the three required fields and None everywhere else. */
  function Bare(valid: bool, army: ArmyEnum.Army, vehicle_type: string): (rec: IndicatorsModel)
    ensures rec.valid == valid && rec.army == army && rec.vehicle_type == vehicle_type
    ensures forall f :: Spec(f).Optional? ==> View(rec, f) == JNull
  {
    IndicatorsModel(valid, army, vehicle_type,
      None, None, None, None, None, None, None, None, None, None,
      None, None, None, None, None, None, None, None, None,
      None, None, None, None, None, None, None)
  }

  /** A payload with the three required fields and no optional one validates, with every optional field None. */
  lemma RequiredFieldsSuffice(m: map<string, Json>, valid: bool, army: ArmyEnum.Army, vehicle_type: string)
    requires Get(m, "valid") == JBool(valid)
    requires Get(m, "army") == JString(ArmyEnum.Value(army))
    requires Get(m, "type") == JString(vehicle_type)
    requires forall f :: Spec(f).Optional? ==> Get(m, Name(f)) == JNull
    ensures Validate(m) == Ok(Bare(valid, army, vehicle_type))
  {
    var expected := Bare(valid, army, vehicle_type);
    ArmyEnum.ParseValue(army);
    forall f
      ensures Accepts(Spec(f), Get(m, Name(f)))
      ensures View(expected, f) == Canon(Spec(f), Get(m, Name(f)))
    {
      RequiredFields(f);
    }
    ViewInjective(Validate(m).value, expected);
  }

  /** An army outside the enum fails construction, and so does a payload without one. */
  lemma UnknownArmyRejected(m: map<string, Json>)
    requires Get(m, "army") == JString("space") || "army" !in m
    ensures Validate(m).Err?
    ensures "army" in Validate(m).error.fields
  {
    assert !Accepts(Spec(Army), Get(m, Name(Army))) by {
      assert Name(Army) == "army";
      assert "space" !in ArmyEnum.Values;
    }
    FieldRejected(m, Army);
  }

  /** The vehicle's name is free text: any string is a valid `type`. */
  lemma AnyVehicleName(m: map<string, Json>, name: string)
    requires Get(m, "type") == JString(name)
    ensures Validate(m).Ok? ==> Validate(m).value.vehicle_type == name
    ensures Validate(m).Err? ==> "type" !in Validate(m).error.fields
  {
    assert Name(VehicleType) == "type";
    if Validate(m).Ok? {
      assert View(Validate(m).value, VehicleType) == JString(name);
    }
  }
}
