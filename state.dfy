/**
 * `StateModel`: the state of the player's vehicle (controls, sensors, engine),
 * under the public field names. `valid` is the only required field; the
 * other thirty are optional numbers, two of them integers.
 */
module StateSchema {
  import opened Wrappers
  import opened JsonValue
  import opened Failures
  import opened Validation

  /** The fields of StateModel, one constructor each. */
  datatype StateField =
    | Valid | Aileron | Elevator | Rudder | Flaps | Gear | Airbrake | HM | TasKmh | IasKmh | Mach
    | AoaDeg | AosDeg | Ny | VyMs | WxDegS | MfuelKg | Mfuel0Kg | Throttle1Percent
    | RpmThrottle1Percent | Mixture1Percent | Radiator1Percent | CompressorStage1 | Magneto1
    | Power1Hp | Rpm1 | ManifoldPressure1Atm | OilTemp1C | Pitch1Deg | Thrust1Kg
    | Efficiency1Percent

  /** The fields in declaration order. */
  const Fields: seq<StateField> := [
    Valid, Aileron, Elevator, Rudder, Flaps, Gear, Airbrake, HM, TasKmh, IasKmh, Mach, AoaDeg,
    AosDeg, Ny, VyMs, WxDegS, MfuelKg, Mfuel0Kg, Throttle1Percent, RpmThrottle1Percent,
    Mixture1Percent, Radiator1Percent, CompressorStage1, Magneto1, Power1Hp, Rpm1,
    ManifoldPressure1Atm, OilTemp1C, Pitch1Deg, Thrust1Kg, Efficiency1Percent
  ]

  /** The name a field has in the JSON the record is built from and serialised to. */
  function Name(f: StateField): string
  {
    match f
    case Valid => "valid"
    case Aileron => "aileron"
    case Elevator => "elevator"
    case Rudder => "rudder"
    case Flaps => "flaps"
    case Gear => "gear"
    case Airbrake => "airbrake"
    case HM => "H_m"
    case TasKmh => "TAS_kmh"
    case IasKmh => "IAS_kmh"
    case Mach => "M"
    case AoaDeg => "AoA_deg"
    case AosDeg => "AoS_deg"
    case Ny => "Ny"
    case VyMs => "Vy_ms"
    case WxDegS => "Wx_deg_s"
    case MfuelKg => "Mfuel_kg"
    case Mfuel0Kg => "Mfuel0_kg"
    case Throttle1Percent => "throttle1_percent"
    case RpmThrottle1Percent => "RPM_throttle1_percent"
    case Mixture1Percent => "mixture1_percent"
    case Radiator1Percent => "radiator1_percent"
    case CompressorStage1 => "compressor_stage1"
    case Magneto1 => "magneto1"
    case Power1Hp => "power1_hp"
    case Rpm1 => "RPM1"
    case ManifoldPressure1Atm => "manifold_pressure1_atm"
    case OilTemp1C => "oil_temp1_C"
    case Pitch1Deg => "pitch1_deg"
    case Thrust1Kg => "thrust1_kg"
    case Efficiency1Percent => "efficiency1_percent"
  }

  /** Each field's declared type. */
  function Spec(f: StateField): FieldSpec
  {
    match f
    case Valid => Required(BoolKind)
    case Aileron => Optional(FloatKind)
    case Elevator => Optional(FloatKind)
    case Rudder => Optional(FloatKind)
    case Flaps => Optional(FloatKind)
    case Gear => Optional(FloatKind)
    case Airbrake => Optional(FloatKind)
    case HM => Optional(FloatKind)
    case TasKmh => Optional(FloatKind)
    case IasKmh => Optional(FloatKind)
    case Mach => Optional(FloatKind)
    case AoaDeg => Optional(FloatKind)
    case AosDeg => Optional(FloatKind)
    case Ny => Optional(FloatKind)
    case VyMs => Optional(FloatKind)
    case WxDegS => Optional(FloatKind)
    case MfuelKg => Optional(FloatKind)
    case Mfuel0Kg => Optional(FloatKind)
    case Throttle1Percent => Optional(FloatKind)
    case RpmThrottle1Percent => Optional(FloatKind)
    case Mixture1Percent => Optional(FloatKind)
    case Radiator1Percent => Optional(FloatKind)
    case CompressorStage1 => Optional(IntKind)
    case Magneto1 => Optional(IntKind)
    case Power1Hp => Optional(FloatKind)
    case Rpm1 => Optional(FloatKind)
    case ManifoldPressure1Atm => Optional(FloatKind)
    case OilTemp1C => Optional(FloatKind)
    case Pitch1Deg => Optional(FloatKind)
    case Thrust1Kg => Optional(FloatKind)
    case Efficiency1Percent => Optional(FloatKind)
  }

  datatype StateModel = StateModel(
    valid: bool,
    aileron: Option<real>,
    elevator: Option<real>,
    rudder: Option<real>,
    flaps: Option<real>,
    gear: Option<real>,
    airbrake: Option<real>,
    H_m: Option<real>,
    TAS_kmh: Option<real>,
    IAS_kmh: Option<real>,
    M: Option<real>,
    AoA_deg: Option<real>,
    AoS_deg: Option<real>,
    Ny: Option<real>,
    Vy_ms: Option<real>,
    Wx_deg_s: Option<real>,
    Mfuel_kg: Option<real>,
    Mfuel0_kg: Option<real>,
    throttle1_percent: Option<real>,
    RPM_throttle1_percent: Option<real>,
    mixture1_percent: Option<real>,
    radiator1_percent: Option<real>,
    compressor_stage1: Option<int>,
    magneto1: Option<int>,
    power1_hp: Option<real>,
    RPM1: Option<real>,
    manifold_pressure1_atm: Option<real>,
    oil_temp1_C: Option<real>,
    pitch1_deg: Option<real>,
    thrust1_kg: Option<real>,
    efficiency1_percent: Option<real>
  )

  /** The JSON a record serialises field `f` to. */
  function View(rec: StateModel, f: StateField): Json
  {
    match f
    case Valid => JBool(rec.valid)
    case Aileron => OptFloatJson(rec.aileron)
    case Elevator => OptFloatJson(rec.elevator)
    case Rudder => OptFloatJson(rec.rudder)
    case Flaps => OptFloatJson(rec.flaps)
    case Gear => OptFloatJson(rec.gear)
    case Airbrake => OptFloatJson(rec.airbrake)
    case HM => OptFloatJson(rec.H_m)
    case TasKmh => OptFloatJson(rec.TAS_kmh)
    case IasKmh => OptFloatJson(rec.IAS_kmh)
    case Mach => OptFloatJson(rec.M)
    case AoaDeg => OptFloatJson(rec.AoA_deg)
    case AosDeg => OptFloatJson(rec.AoS_deg)
    case Ny => OptFloatJson(rec.Ny)
    case VyMs => OptFloatJson(rec.Vy_ms)
    case WxDegS => OptFloatJson(rec.Wx_deg_s)
    case MfuelKg => OptFloatJson(rec.Mfuel_kg)
    case Mfuel0Kg => OptFloatJson(rec.Mfuel0_kg)
    case Throttle1Percent => OptFloatJson(rec.throttle1_percent)
    case RpmThrottle1Percent => OptFloatJson(rec.RPM_throttle1_percent)
    case Mixture1Percent => OptFloatJson(rec.mixture1_percent)
    case Radiator1Percent => OptFloatJson(rec.radiator1_percent)
    case CompressorStage1 => OptIntJson(rec.compressor_stage1)
    case Magneto1 => OptIntJson(rec.magneto1)
    case Power1Hp => OptFloatJson(rec.power1_hp)
    case Rpm1 => OptFloatJson(rec.RPM1)
    case ManifoldPressure1Atm => OptFloatJson(rec.manifold_pressure1_atm)
    case OilTemp1C => OptFloatJson(rec.oil_temp1_C)
    case Pitch1Deg => OptFloatJson(rec.pitch1_deg)
    case Thrust1Kg => OptFloatJson(rec.thrust1_kg)
    case Efficiency1Percent => OptFloatJson(rec.efficiency1_percent)
  }

  lemma FieldsComplete(f: StateField)
    ensures f in Fields
  {
  }

  /** No two fields share a name. */
  lemma NameInjective()
    ensures forall f: StateField, g: StateField :: Name(f) == Name(g) ==> f == g
  {
  }

  lemma NamesDistinct(f: StateField, g: StateField)
    ensures Name(f) == Name(g) ==> f == g
  {
    NameInjective();
  }

  /** Every field's value in `m` (None when absent) has the field's declared type. */
  predicate Conforms(m: map<string, Json>)
  {
    forall f :: Accepts(Spec(f), Get(m, Name(f)))
  }

  /** The record built from conforming keyword arguments. */
  function Decode(m: map<string, Json>): StateModel
  {
    StateModel(
      BoolOf(Get(m, Name(Valid))),
      OptFloatOf(Get(m, Name(Aileron))),
      OptFloatOf(Get(m, Name(Elevator))),
      OptFloatOf(Get(m, Name(Rudder))),
      OptFloatOf(Get(m, Name(Flaps))),
      OptFloatOf(Get(m, Name(Gear))),
      OptFloatOf(Get(m, Name(Airbrake))),
      OptFloatOf(Get(m, Name(HM))),
      OptFloatOf(Get(m, Name(TasKmh))),
      OptFloatOf(Get(m, Name(IasKmh))),
      OptFloatOf(Get(m, Name(Mach))),
      OptFloatOf(Get(m, Name(AoaDeg))),
      OptFloatOf(Get(m, Name(AosDeg))),
      OptFloatOf(Get(m, Name(Ny))),
      OptFloatOf(Get(m, Name(VyMs))),
      OptFloatOf(Get(m, Name(WxDegS))),
      OptFloatOf(Get(m, Name(MfuelKg))),
      OptFloatOf(Get(m, Name(Mfuel0Kg))),
      OptFloatOf(Get(m, Name(Throttle1Percent))),
      OptFloatOf(Get(m, Name(RpmThrottle1Percent))),
      OptFloatOf(Get(m, Name(Mixture1Percent))),
      OptFloatOf(Get(m, Name(Radiator1Percent))),
      OptIntOf(Get(m, Name(CompressorStage1))),
      OptIntOf(Get(m, Name(Magneto1))),
      OptFloatOf(Get(m, Name(Power1Hp))),
      OptFloatOf(Get(m, Name(Rpm1))),
      OptFloatOf(Get(m, Name(ManifoldPressure1Atm))),
      OptFloatOf(Get(m, Name(OilTemp1C))),
      OptFloatOf(Get(m, Name(Pitch1Deg))),
      OptFloatOf(Get(m, Name(Thrust1Kg))),
      OptFloatOf(Get(m, Name(Efficiency1Percent)))
    )
  }

  /** The names of the fields whose value in `m` does not have the declared type. */
  function RejectedNames(m: map<string, Json>): (names: set<string>)
    ensures forall f :: Name(f) in names <==> !Accepts(Spec(f), Get(m, Name(f)))
    ensures names == {} <==> Conforms(m)
  {
    assert forall f :: f in Fields by { forall f { FieldsComplete(f); } }
    var names := set f | f in Fields && !Accepts(Spec(f), Get(m, Name(f))) :: Name(f);
    assert forall f :: Name(f) in names ==> !Accepts(Spec(f), Get(m, Name(f))) by {
      forall f | Name(f) in names
        ensures !Accepts(Spec(f), Get(m, Name(f)))
      {
        var g :| g in Fields && !Accepts(Spec(g), Get(m, Name(g))) && Name(g) == Name(f);
        NamesDistinct(f, g);
      }
    }
    assert !Conforms(m) ==> names != {} by {
      if !Conforms(m) {
        var f :| !Accepts(Spec(f), Get(m, Name(f)));
        assert Name(f) in names;
      }
    }
    names
  }

  /** What a field of the decoded record serialises to, when the field accepts its argument. */
  lemma DecodeView(m: map<string, Json>, f: StateField)
    requires Accepts(Spec(f), Get(m, Name(f)))
    ensures View(Decode(m), f) == Canon(Spec(f), Get(m, Name(f)))
  {
    match f
    case Valid => DecodesValid(m);
    case Aileron => DecodesAileron(m);
    case Elevator => DecodesElevator(m);
    case Rudder => DecodesRudder(m);
    case Flaps => DecodesFlaps(m);
    case Gear => DecodesGear(m);
    case Airbrake => DecodesAirbrake(m);
    case HM => DecodesHM(m);
    case TasKmh => DecodesTasKmh(m);
    case IasKmh => DecodesIasKmh(m);
    case Mach => DecodesMach(m);
    case AoaDeg => DecodesAoaDeg(m);
    case AosDeg => DecodesAosDeg(m);
    case Ny => DecodesNy(m);
    case VyMs => DecodesVyMs(m);
    case WxDegS => DecodesWxDegS(m);
    case MfuelKg => DecodesMfuelKg(m);
    case Mfuel0Kg => DecodesMfuel0Kg(m);
    case Throttle1Percent => DecodesThrottle1Percent(m);
    case RpmThrottle1Percent => DecodesRpmThrottle1Percent(m);
    case Mixture1Percent => DecodesMixture1Percent(m);
    case Radiator1Percent => DecodesRadiator1Percent(m);
    case CompressorStage1 => DecodesCompressorStage1(m);
    case Magneto1 => DecodesMagneto1(m);
    case Power1Hp => DecodesPower1Hp(m);
    case Rpm1 => DecodesRpm1(m);
    case ManifoldPressure1Atm => DecodesManifoldPressure1Atm(m);
    case OilTemp1C => DecodesOilTemp1C(m);
    case Pitch1Deg => DecodesPitch1Deg(m);
    case Thrust1Kg => DecodesThrust1Kg(m);
    case Efficiency1Percent => DecodesEfficiency1Percent(m);
  }

  lemma DecodesValid(m: map<string, Json>)
    requires Accepts(Spec(Valid), Get(m, Name(Valid)))
    ensures View(Decode(m), Valid) == Canon(Spec(Valid), Get(m, Name(Valid)))
  {
    BoolDecodes(Get(m, Name(Valid)));
  }

  lemma DecodesAileron(m: map<string, Json>)
    requires Accepts(Spec(Aileron), Get(m, Name(Aileron)))
    ensures View(Decode(m), Aileron) == Canon(Spec(Aileron), Get(m, Name(Aileron)))
  {
    OptFloatDecodes(Get(m, Name(Aileron)));
  }

  lemma DecodesElevator(m: map<string, Json>)
    requires Accepts(Spec(Elevator), Get(m, Name(Elevator)))
    ensures View(Decode(m), Elevator) == Canon(Spec(Elevator), Get(m, Name(Elevator)))
  {
    OptFloatDecodes(Get(m, Name(Elevator)));
  }

  lemma DecodesRudder(m: map<string, Json>)
    requires Accepts(Spec(Rudder), Get(m, Name(Rudder)))
    ensures View(Decode(m), Rudder) == Canon(Spec(Rudder), Get(m, Name(Rudder)))
  {
    OptFloatDecodes(Get(m, Name(Rudder)));
  }

  lemma DecodesFlaps(m: map<string, Json>)
    requires Accepts(Spec(Flaps), Get(m, Name(Flaps)))
    ensures View(Decode(m), Flaps) == Canon(Spec(Flaps), Get(m, Name(Flaps)))
  {
    OptFloatDecodes(Get(m, Name(Flaps)));
  }

  lemma DecodesGear(m: map<string, Json>)
    requires Accepts(Spec(Gear), Get(m, Name(Gear)))
    ensures View(Decode(m), Gear) == Canon(Spec(Gear), Get(m, Name(Gear)))
  {
    OptFloatDecodes(Get(m, Name(Gear)));
  }

  lemma DecodesAirbrake(m: map<string, Json>)
    requires Accepts(Spec(Airbrake), Get(m, Name(Airbrake)))
    ensures View(Decode(m), Airbrake) == Canon(Spec(Airbrake), Get(m, Name(Airbrake)))
  {
    OptFloatDecodes(Get(m, Name(Airbrake)));
  }

  lemma DecodesHM(m: map<string, Json>)
    requires Accepts(Spec(HM), Get(m, Name(HM)))
    ensures View(Decode(m), HM) == Canon(Spec(HM), Get(m, Name(HM)))
  {
    OptFloatDecodes(Get(m, Name(HM)));
  }

  lemma DecodesTasKmh(m: map<string, Json>)
    requires Accepts(Spec(TasKmh), Get(m, Name(TasKmh)))
    ensures View(Decode(m), TasKmh) == Canon(Spec(TasKmh), Get(m, Name(TasKmh)))
  {
    OptFloatDecodes(Get(m, Name(TasKmh)));
  }

  lemma DecodesIasKmh(m: map<string, Json>)
    requires Accepts(Spec(IasKmh), Get(m, Name(IasKmh)))
    ensures View(Decode(m), IasKmh) == Canon(Spec(IasKmh), Get(m, Name(IasKmh)))
  {
    OptFloatDecodes(Get(m, Name(IasKmh)));
  }

  lemma DecodesMach(m: map<string, Json>)
    requires Accepts(Spec(Mach), Get(m, Name(Mach)))
    ensures View(Decode(m), Mach) == Canon(Spec(Mach), Get(m, Name(Mach)))
  {
    OptFloatDecodes(Get(m, Name(Mach)));
  }

  lemma DecodesAoaDeg(m: map<string, Json>)
    requires Accepts(Spec(AoaDeg), Get(m, Name(AoaDeg)))
    ensures View(Decode(m), AoaDeg) == Canon(Spec(AoaDeg), Get(m, Name(AoaDeg)))
  {
    OptFloatDecodes(Get(m, Name(AoaDeg)));
  }

  lemma DecodesAosDeg(m: map<string, Json>)
    requires Accepts(Spec(AosDeg), Get(m, Name(AosDeg)))
    ensures View(Decode(m), AosDeg) == Canon(Spec(AosDeg), Get(m, Name(AosDeg)))
  {
    OptFloatDecodes(Get(m, Name(AosDeg)));
  }

  lemma DecodesNy(m: map<string, Json>)
    requires Accepts(Spec(Ny), Get(m, Name(Ny)))
    ensures View(Decode(m), Ny) == Canon(Spec(Ny), Get(m, Name(Ny)))
  {
    OptFloatDecodes(Get(m, Name(Ny)));
  }

  lemma DecodesVyMs(m: map<string, Json>)
    requires Accepts(Spec(VyMs), Get(m, Name(VyMs)))
    ensures View(Decode(m), VyMs) == Canon(Spec(VyMs), Get(m, Name(VyMs)))
  {
    OptFloatDecodes(Get(m, Name(VyMs)));
  }

  lemma DecodesWxDegS(m: map<string, Json>)
    requires Accepts(Spec(WxDegS), Get(m, Name(WxDegS)))
    ensures View(Decode(m), WxDegS) == Canon(Spec(WxDegS), Get(m, Name(WxDegS)))
  {
    OptFloatDecodes(Get(m, Name(WxDegS)));
  }

  lemma DecodesMfuelKg(m: map<string, Json>)
    requires Accepts(Spec(MfuelKg), Get(m, Name(MfuelKg)))
    ensures View(Decode(m), MfuelKg) == Canon(Spec(MfuelKg), Get(m, Name(MfuelKg)))
  {
    OptFloatDecodes(Get(m, Name(MfuelKg)));
  }

  lemma DecodesMfuel0Kg(m: map<string, Json>)
    requires Accepts(Spec(Mfuel0Kg), Get(m, Name(Mfuel0Kg)))
    ensures View(Decode(m), Mfuel0Kg) == Canon(Spec(Mfuel0Kg), Get(m, Name(Mfuel0Kg)))
  {
    OptFloatDecodes(Get(m, Name(Mfuel0Kg)));
  }

  lemma DecodesThrottle1Percent(m: map<string, Json>)
    requires Accepts(Spec(Throttle1Percent), Get(m, Name(Throttle1Percent)))
    ensures View(Decode(m), Throttle1Percent) == Canon(Spec(Throttle1Percent), Get(m, Name(Throttle1Percent)))
  {
    OptFloatDecodes(Get(m, Name(Throttle1Percent)));
  }

  lemma DecodesRpmThrottle1Percent(m: map<string, Json>)
    requires Accepts(Spec(RpmThrottle1Percent), Get(m, Name(RpmThrottle1Percent)))
    ensures View(Decode(m), RpmThrottle1Percent) == Canon(Spec(RpmThrottle1Percent), Get(m, Name(RpmThrottle1Percent)))
  {
    OptFloatDecodes(Get(m, Name(RpmThrottle1Percent)));
  }

  lemma DecodesMixture1Percent(m: map<string, Json>)
    requires Accepts(Spec(Mixture1Percent), Get(m, Name(Mixture1Percent)))
    ensures View(Decode(m), Mixture1Percent) == Canon(Spec(Mixture1Percent), Get(m, Name(Mixture1Percent)))
  {
    OptFloatDecodes(Get(m, Name(Mixture1Percent)));
  }

  lemma DecodesRadiator1Percent(m: map<string, Json>)
    requires Accepts(Spec(Radiator1Percent), Get(m, Name(Radiator1Percent)))
    ensures View(Decode(m), Radiator1Percent) == Canon(Spec(Radiator1Percent), Get(m, Name(Radiator1Percent)))
  {
    OptFloatDecodes(Get(m, Name(Radiator1Percent)));
  }

  lemma DecodesCompressorStage1(m: map<string, Json>)
    requires Accepts(Spec(CompressorStage1), Get(m, Name(CompressorStage1)))
    ensures View(Decode(m), CompressorStage1) == Canon(Spec(CompressorStage1), Get(m, Name(CompressorStage1)))
  {
    OptIntDecodes(Get(m, Name(CompressorStage1)));
  }

  lemma DecodesMagneto1(m: map<string, Json>)
    requires Accepts(Spec(Magneto1), Get(m, Name(Magneto1)))
    ensures View(Decode(m), Magneto1) == Canon(Spec(Magneto1), Get(m, Name(Magneto1)))
  {
    OptIntDecodes(Get(m, Name(Magneto1)));
  }

  lemma DecodesPower1Hp(m: map<string, Json>)
    requires Accepts(Spec(Power1Hp), Get(m, Name(Power1Hp)))
    ensures View(Decode(m), Power1Hp) == Canon(Spec(Power1Hp), Get(m, Name(Power1Hp)))
  {
    OptFloatDecodes(Get(m, Name(Power1Hp)));
  }

  lemma DecodesRpm1(m: map<string, Json>)
    requires Accepts(Spec(Rpm1), Get(m, Name(Rpm1)))
    ensures View(Decode(m), Rpm1) == Canon(Spec(Rpm1), Get(m, Name(Rpm1)))
  {
    OptFloatDecodes(Get(m, Name(Rpm1)));
  }

  lemma DecodesManifoldPressure1Atm(m: map<string, Json>)
    requires Accepts(Spec(ManifoldPressure1Atm), Get(m, Name(ManifoldPressure1Atm)))
    ensures View(Decode(m), ManifoldPressure1Atm) == Canon(Spec(ManifoldPressure1Atm), Get(m, Name(ManifoldPressure1Atm)))
  {
    OptFloatDecodes(Get(m, Name(ManifoldPressure1Atm)));
  }

  lemma DecodesOilTemp1C(m: map<string, Json>)
    requires Accepts(Spec(OilTemp1C), Get(m, Name(OilTemp1C)))
    ensures View(Decode(m), OilTemp1C) == Canon(Spec(OilTemp1C), Get(m, Name(OilTemp1C)))
  {
    OptFloatDecodes(Get(m, Name(OilTemp1C)));
  }

  lemma DecodesPitch1Deg(m: map<string, Json>)
    requires Accepts(Spec(Pitch1Deg), Get(m, Name(Pitch1Deg)))
    ensures View(Decode(m), Pitch1Deg) == Canon(Spec(Pitch1Deg), Get(m, Name(Pitch1Deg)))
  {
    OptFloatDecodes(Get(m, Name(Pitch1Deg)));
  }

  lemma DecodesThrust1Kg(m: map<string, Json>)
    requires Accepts(Spec(Thrust1Kg), Get(m, Name(Thrust1Kg)))
    ensures View(Decode(m), Thrust1Kg) == Canon(Spec(Thrust1Kg), Get(m, Name(Thrust1Kg)))
  {
    OptFloatDecodes(Get(m, Name(Thrust1Kg)));
  }

  lemma DecodesEfficiency1Percent(m: map<string, Json>)
    requires Accepts(Spec(Efficiency1Percent), Get(m, Name(Efficiency1Percent)))
    ensures View(Decode(m), Efficiency1Percent) == Canon(Spec(Efficiency1Percent), Get(m, Name(Efficiency1Percent)))
  {
    OptFloatDecodes(Get(m, Name(Efficiency1Percent)));
  }

  /**
   * `StateModel(**m)`: the record when every field conforms, otherwise a
   * validation error naming every field that does not. Keys of `m` that name
   * no field are ignored.
   */
  function Validate(m: map<string, Json>): (r: Result<StateModel, Failure>)
    ensures r.Ok? <==> Conforms(m)
    ensures r.Ok? ==> forall f :: View(r.value, f) == Canon(Spec(f), Get(m, Name(f)))
    ensures r.Err? ==> r.error.ValidationError? && r.error.model == "StateModel"
    ensures r.Err? ==> forall f :: Name(f) in r.error.fields <==> !Accepts(Spec(f), Get(m, Name(f)))
  {
    if Conforms(m) then
      assert forall f :: View(Decode(m), f) == Canon(Spec(f), Get(m, Name(f))) by {
        forall f { DecodeView(m, f); }
      }
      Ok(Decode(m))
    else Err(ValidationError("StateModel", RejectedNames(m)))
  }

  /** One field of the wrong type is enough for construction to fail, and the error names it. */
  lemma FieldRejected(m: map<string, Json>, f: StateField)
    requires !Accepts(Spec(f), Get(m, Name(f)))
    ensures Validate(m).Err?
    ensures Name(f) in Validate(m).error.fields
  {
  }

  /** Construction reads only the fields' own names: keys of `m` that name no field are ignored. */
  lemma Extensional(m1: map<string, Json>, m2: map<string, Json>)
    requires forall f :: Get(m1, Name(f)) == Get(m2, Name(f))
    ensures Validate(m1) == Validate(m2)
  {
    if Conforms(m1) {
      ViewInjective(Validate(m1).value, Validate(m2).value);
    } else {
      assert RejectedNames(m1) == RejectedNames(m2) by {
        RejectedNamesFrom(m1, m2);
        RejectedNamesFrom(m2, m1);
      }
    }
  }

  lemma RejectedNamesFrom(m1: map<string, Json>, m2: map<string, Json>)
    requires forall f :: Get(m1, Name(f)) == Get(m2, Name(f))
    ensures RejectedNames(m1) <= RejectedNames(m2)
  {
    forall k | k in RejectedNames(m1) ensures k in RejectedNames(m2) {
      var f :| f in Fields && !Accepts(Spec(f), Get(m1, Name(f))) && Name(f) == k;
      assert Get(m1, Name(f)) == Get(m2, Name(f));
    }
  }

  /** A required field that is missing (or null) fails construction, and the error names it. */
  lemma MissingRequiredRejected(m: map<string, Json>, f: StateField)
    requires Spec(f).Required? && Get(m, Name(f)) == JNull
    ensures Validate(m).Err?
    ensures Name(f) in Validate(m).error.fields
  {
    assert !Accepts(Spec(f), JNull);
  }

  /** The keyword arguments a record serialises to: one entry per field. */
  function ToMap(rec: StateModel): (m: map<string, Json>)
    ensures forall f :: Name(f) in m && m[Name(f)] == View(rec, f)
  {
    NameInjective();
    assert forall f :: f in Fields by { forall f { FieldsComplete(f); } }
    map f | f in Fields :: Name(f) := View(rec, f)
  }

  /** A record is determined by what its fields serialise to. */
  lemma ViewInjective(a: StateModel, b: StateModel)
    requires forall f :: View(a, f) == View(b, f)
    ensures a == b
  {
    ViewInjectivePart1(a, b);
    ViewInjectivePart2(a, b);
    ViewInjectivePart3(a, b);
    ViewInjectivePart4(a, b);
    ViewInjectivePart5(a, b);
    ViewInjectivePart6(a, b);
    ViewInjectivePart7(a, b);
    ViewInjectivePart8(a, b);
  }

  lemma ViewInjectivePart1(a: StateModel, b: StateModel)
    requires forall f :: View(a, f) == View(b, f)
    ensures a.valid == b.valid && a.aileron == b.aileron && a.elevator == b.elevator && a.rudder == b.rudder
  {
    assert a.valid == b.valid by { assert View(a, Valid) == View(b, Valid); }
    assert a.aileron == b.aileron by { assert View(a, Aileron) == View(b, Aileron); }
    assert a.elevator == b.elevator by { assert View(a, Elevator) == View(b, Elevator); }
    assert a.rudder == b.rudder by { assert View(a, Rudder) == View(b, Rudder); }
  }

  lemma ViewInjectivePart2(a: StateModel, b: StateModel)
    requires forall f :: View(a, f) == View(b, f)
    ensures a.flaps == b.flaps && a.gear == b.gear && a.airbrake == b.airbrake && a.H_m == b.H_m
  {
    assert a.flaps == b.flaps by { assert View(a, Flaps) == View(b, Flaps); }
    assert a.gear == b.gear by { assert View(a, Gear) == View(b, Gear); }
    assert a.airbrake == b.airbrake by { assert View(a, Airbrake) == View(b, Airbrake); }
    assert a.H_m == b.H_m by { assert View(a, HM) == View(b, HM); }
  }

  lemma ViewInjectivePart3(a: StateModel, b: StateModel)
    requires forall f :: View(a, f) == View(b, f)
    ensures a.TAS_kmh == b.TAS_kmh && a.IAS_kmh == b.IAS_kmh && a.M == b.M && a.AoA_deg == b.AoA_deg
  {
    assert a.TAS_kmh == b.TAS_kmh by { assert View(a, TasKmh) == View(b, TasKmh); }
    assert a.IAS_kmh == b.IAS_kmh by { assert View(a, IasKmh) == View(b, IasKmh); }
    assert a.M == b.M by { assert View(a, Mach) == View(b, Mach); }
    assert a.AoA_deg == b.AoA_deg by { assert View(a, AoaDeg) == View(b, AoaDeg); }
  }

  lemma ViewInjectivePart4(a: StateModel, b: StateModel)
    requires forall f :: View(a, f) == View(b, f)
    ensures a.AoS_deg == b.AoS_deg && a.Ny == b.Ny && a.Vy_ms == b.Vy_ms && a.Wx_deg_s == b.Wx_deg_s
  {
    assert a.AoS_deg == b.AoS_deg by { assert View(a, AosDeg) == View(b, AosDeg); }
    assert a.Ny == b.Ny by { assert View(a, Ny) == View(b, Ny); }
    assert a.Vy_ms == b.Vy_ms by { assert View(a, VyMs) == View(b, VyMs); }
    assert a.Wx_deg_s == b.Wx_deg_s by { assert View(a, WxDegS) == View(b, WxDegS); }
  }

  lemma ViewInjectivePart5(a: StateModel, b: StateModel)
    requires forall f :: View(a, f) == View(b, f)
    ensures a.Mfuel_kg == b.Mfuel_kg && a.Mfuel0_kg == b.Mfuel0_kg && a.throttle1_percent == b.throttle1_percent && a.RPM_throttle1_percent == b.RPM_throttle1_percent
  {
    assert a.Mfuel_kg == b.Mfuel_kg by { assert View(a, MfuelKg) == View(b, MfuelKg); }
    assert a.Mfuel0_kg == b.Mfuel0_kg by { assert View(a, Mfuel0Kg) == View(b, Mfuel0Kg); }
    assert a.throttle1_percent == b.throttle1_percent by { assert View(a, Throttle1Percent) == View(b, Throttle1Percent); }
    assert a.RPM_throttle1_percent == b.RPM_throttle1_percent by { assert View(a, RpmThrottle1Percent) == View(b, RpmThrottle1Percent); }
  }

  lemma ViewInjectivePart6(a: StateModel, b: StateModel)
    requires forall f :: View(a, f) == View(b, f)
    ensures a.mixture1_percent == b.mixture1_percent && a.radiator1_percent == b.radiator1_percent && a.compressor_stage1 == b.compressor_stage1 && a.magneto1 == b.magneto1
  {
    assert a.mixture1_percent == b.mixture1_percent by { assert View(a, Mixture1Percent) == View(b, Mixture1Percent); }
    assert a.radiator1_percent == b.radiator1_percent by { assert View(a, Radiator1Percent) == View(b, Radiator1Percent); }
    assert a.compressor_stage1 == b.compressor_stage1 by { assert View(a, CompressorStage1) == View(b, CompressorStage1); }
    assert a.magneto1 == b.magneto1 by { assert View(a, Magneto1) == View(b, Magneto1); }
  }

  lemma ViewInjectivePart7(a: StateModel, b: StateModel)
    requires forall f :: View(a, f) == View(b, f)
    ensures a.power1_hp == b.power1_hp && a.RPM1 == b.RPM1 && a.manifold_pressure1_atm == b.manifold_pressure1_atm && a.oil_temp1_C == b.oil_temp1_C
  {
    assert a.power1_hp == b.power1_hp by { assert View(a, Power1Hp) == View(b, Power1Hp); }
    assert a.RPM1 == b.RPM1 by { assert View(a, Rpm1) == View(b, Rpm1); }
    assert a.manifold_pressure1_atm == b.manifold_pressure1_atm by { assert View(a, ManifoldPressure1Atm) == View(b, ManifoldPressure1Atm); }
    assert a.oil_temp1_C == b.oil_temp1_C by { assert View(a, OilTemp1C) == View(b, OilTemp1C); }
  }

  lemma ViewInjectivePart8(a: StateModel, b: StateModel)
    requires forall f :: View(a, f) == View(b, f)
    ensures a.pitch1_deg == b.pitch1_deg && a.thrust1_kg == b.thrust1_kg && a.efficiency1_percent == b.efficiency1_percent
  {
    assert a.pitch1_deg == b.pitch1_deg by { assert View(a, Pitch1Deg) == View(b, Pitch1Deg); }
    assert a.thrust1_kg == b.thrust1_kg by { assert View(a, Thrust1Kg) == View(b, Thrust1Kg); }
    assert a.efficiency1_percent == b.efficiency1_percent by { assert View(a, Efficiency1Percent) == View(b, Efficiency1Percent); }
  }

  /** Serialising a record and validating the result gives the record back. */
  lemma RoundTrip(rec: StateModel)
    ensures Validate(ToMap(rec)) == Ok(rec)
  {
    var m := ToMap(rec);
    forall f
      ensures Get(m, Name(f)) == View(rec, f) && Accepts(Spec(f), View(rec, f))
      ensures Canon(Spec(f), View(rec, f)) == View(rec, f)
    {
      ViewCanonical(rec, f);
    }
    ViewInjective(Validate(m).value, rec);
  }

  /** What a field serialises to has the declared type and is already in canonical form. */
  lemma ViewCanonical(rec: StateModel, f: StateField)
    ensures Accepts(Spec(f), View(rec, f))
    ensures Canon(Spec(f), View(rec, f)) == View(rec, f)
  {
  }

  /** Only `valid` is required; every other field also takes None. */
  lemma OnlyValidRequired(f: StateField)
    ensures Spec(f).Required? <==> f == Valid
    ensures f != Valid ==> Accepts(Spec(f), JNull)
  {
  }

  /** `compressor_stage1` and `magneto1` are the integer fields; the other optional fields are floats. */
  lemma IntegerFields(f: StateField)
    ensures Spec(f) == Optional(IntKind) <==> f in {CompressorStage1, Magneto1}
    ensures f != Valid && f !in {CompressorStage1, Magneto1} ==> Spec(f) == Optional(FloatKind)
  {
  }

  /** The record with `valid` false and nothing else reported. */
  const Unreported: StateModel := StateModel(
    false,
    None, None, None, None, None, None, None, None, None, None,
    None, None, None, None, None, None, None, None, None, None,
    None, None, None, None, None, None, None, None, None, None
  )

  /** Every field of Unreported except `valid` serialises to None. */
  lemma UnreportedViews(f: StateField)
    ensures f != Valid ==> View(Unreported, f) == JNull
  {
  }

  /** A payload reporting `valid` false and no optional field validates to Unreported. */
  lemma NothingReported(m: map<string, Json>)
    requires Get(m, "valid") == JBool(false)
    requires forall f :: f != Valid ==> Get(m, Name(f)) == JNull
    ensures Validate(m) == Ok(Unreported)
  {
    forall f
      ensures Accepts(Spec(f), Get(m, Name(f)))
      ensures View(Unreported, f) == Canon(Spec(f), Get(m, Name(f)))
    {
      OnlyValidRequired(f);
      UnreportedViews(f);
    }
    ViewInjective(Validate(m).value, Unreported);
  }

  /** A value of the wrong type fails construction, for example a string altitude. */
  lemma WrongTypeRejected(m: map<string, Json>)
    requires Get(m, "H_m") == JString("6473")
    ensures Validate(m).Err?
    ensures "H_m" in Validate(m).error.fields
  {
    assert !Accepts(Spec(HM), Get(m, Name(HM))) by {
      assert Name(HM) == "H_m";
    }
    FieldRejected(m, HM);
  }
}
