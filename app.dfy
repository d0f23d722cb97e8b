/**
 * The gateway: an App object holding the four upstream URLs, and one handler
 * per telemetry document. Each handler fetches its document, turns it into a
 * typed record (or a list of them) and answers with it; any failure on the
 * way, whatever its cause, becomes one 502 error. The fetch is a parameter:
 * the model does not simulate the network.
 */
module WarThunderApp {
  import opened Wrappers
  import opened JsonValue
  import opened Failures
  import opened Validation
  import opened UpstreamUrls
  import IndicatorsSchema
  import MapInfoSchema
  import StateSchema
  import MapObjectSchema
  import MapObjectTypeEnum
  import MapObjectIconEnum
  import MapObjectIconBgEnum

  /** An HTTP answer: the typed body, or an error status with its detail text. */
  datatype Response<T> = Success(body: T) | HttpError(status: int, detail: string)

  const UnreachablePrefix: string := "Upstream service unreachable: "

  /** The `except Exception` clause shared by the handlers: every failure becomes a 502. */
  function Respond<T>(r: Result<T, Failure>): (resp: Response<T>)
    ensures resp.Success? <==> r.Ok?
    ensures r.Ok? ==> resp.body == r.value
    ensures r.Err? ==> resp.status == 502 && UnreachablePrefix <= resp.detail
    ensures r.Err? ==> UnreachablePrefix <= resp.detail && resp.detail[|UnreachablePrefix|..] == Describe(r.error)
  {
    match r
    case Ok(v) => Success(v)
    case Err(e) => HttpError(502, UnreachablePrefix + Describe(e))
  }

  /** The upstream document at `url`: what the fetch returns, or why it returned nothing. */
  function Fetch(upstream: string -> Result<Json, FetchError>, url: string): (r: Result<Json, Failure>)
    ensures r.Ok? <==> upstream(url).Ok?
    ensures r.Ok? ==> r.value == upstream(url).value
    ensures r.Err? ==> r.error == Unreachable(upstream(url).error)
  {
    match upstream(url)
    case Ok(data) => Ok(data)
    case Err(cause) => Err(Unreachable(cause))
  }

  // ---------------------------------------------------------------------------
  // /indicators and /map_info: the document is the record's keyword arguments.

  /** `IndicatorsModel(**data)`. */
  function BuildIndicators(data: Json): (r: Result<IndicatorsSchema.IndicatorsModel, Failure>)
    ensures !data.JObject? ==> r == Err(NotAMapping(data))
    ensures r.Ok? <==> data.JObject? && IndicatorsSchema.Conforms(data.fields)
    ensures r.Ok? ==> forall f :: IndicatorsSchema.View(r.value, f)
                                   == Canon(IndicatorsSchema.Spec(f), Get(data.fields, IndicatorsSchema.Name(f)))
  {
    if data.JObject? then IndicatorsSchema.Validate(data.fields) else Err(NotAMapping(data))
  }

  /** `MapInfoModel(**data)`. */
  function BuildMapInfo(data: Json): (r: Result<MapInfoSchema.MapInfoModel, Failure>)
    ensures !data.JObject? ==> r == Err(NotAMapping(data))
    ensures r.Ok? <==> data.JObject? && MapInfoSchema.Conforms(data.fields)
    ensures r.Ok? ==> forall f :: MapInfoSchema.View(r.value, f)
                                   == Canon(MapInfoSchema.Spec(f), Get(data.fields, MapInfoSchema.Name(f)))
  {
    if data.JObject? then MapInfoSchema.Validate(data.fields) else Err(NotAMapping(data))
  }

  // ---------------------------------------------------------------------------
  // /state: thirty-one fixed telemetry keys, renamed.

  /** The telemetry key each StateModel field is read from. */
  function UpstreamKey(f: StateSchema.StateField): string
  {
    match f
    case Valid => "valid"
    case Aileron => "aileron, %"
    case Elevator => "elevator, %"
    case Rudder => "rudder, %"
    case Flaps => "flaps, %"
    case Gear => "gear, %"
    case Airbrake => "airbrake, %"
    case HM => "H, m"
    case TasKmh => "TAS, km/h"
    case IasKmh => "IAS, km/h"
    case Mach => "M"
    case AoaDeg => "AoA, deg"
    case AosDeg => "AoS, deg"
    case Ny => "Ny"
    case VyMs => "Vy, m/s"
    case WxDegS => "Wx, deg/s"
    case MfuelKg => "Mfuel, kg"
    case Mfuel0Kg => "Mfuel0, kg"
    case Throttle1Percent => "throttle 1, %"
    case RpmThrottle1Percent => "RPM throttle 1, %"
    case Mixture1Percent => "mixture 1, %"
    case Radiator1Percent => "radiator 1, %"
    case CompressorStage1 => "compressor stage 1"
    case Magneto1 => "magneto 1"
    case Power1Hp => "power 1, hp"
    case Rpm1 => "RPM 1"
    case ManifoldPressure1Atm => "manifold pressure 1, atm"
    case OilTemp1C => "oil temp 1, C"
    case Pitch1Deg => "pitch 1, deg"
    case Thrust1Kg => "thrust 1, kgs"
    case Efficiency1Percent => "efficiency 1, %"
  }

  /** Each telemetry key feeds exactly one field. */
  lemma UpstreamKeysDistinct(f: StateSchema.StateField, g: StateSchema.StateField)
    ensures UpstreamKey(f) == UpstreamKey(g) ==> f == g
  {
    if f in {StateSchema.Valid, StateSchema.Aileron, StateSchema.Elevator, StateSchema.Rudder} {
      KeysDistinctFrom1(f, g);
    } else if f in {StateSchema.Flaps, StateSchema.Gear, StateSchema.Airbrake, StateSchema.HM} {
      KeysDistinctFrom2(f, g);
    } else if f in {StateSchema.TasKmh, StateSchema.IasKmh, StateSchema.Mach, StateSchema.AoaDeg} {
      KeysDistinctFrom3(f, g);
    } else if f in {StateSchema.AosDeg, StateSchema.Ny, StateSchema.VyMs, StateSchema.WxDegS} {
      KeysDistinctFrom4(f, g);
    } else if f in {StateSchema.MfuelKg, StateSchema.Mfuel0Kg, StateSchema.Throttle1Percent, StateSchema.RpmThrottle1Percent} {
      KeysDistinctFrom5(f, g);
    } else if f in {StateSchema.Mixture1Percent, StateSchema.Radiator1Percent, StateSchema.CompressorStage1, StateSchema.Magneto1} {
      KeysDistinctFrom6(f, g);
    } else if f in {StateSchema.Power1Hp, StateSchema.Rpm1, StateSchema.ManifoldPressure1Atm, StateSchema.OilTemp1C} {
      KeysDistinctFrom7(f, g);
    } else {
      KeysDistinctFrom8(f, g);
    }
  }

  lemma KeysDistinctFrom1(f: StateSchema.StateField, g: StateSchema.StateField)
    requires f in {StateSchema.Valid, StateSchema.Aileron, StateSchema.Elevator, StateSchema.Rudder}
    ensures UpstreamKey(f) == UpstreamKey(g) ==> f == g
  {
  }

  lemma KeysDistinctFrom2(f: StateSchema.StateField, g: StateSchema.StateField)
    requires f in {StateSchema.Flaps, StateSchema.Gear, StateSchema.Airbrake, StateSchema.HM}
    ensures UpstreamKey(f) == UpstreamKey(g) ==> f == g
  {
  }

  lemma KeysDistinctFrom3(f: StateSchema.StateField, g: StateSchema.StateField)
    requires f in {StateSchema.TasKmh, StateSchema.IasKmh, StateSchema.Mach, StateSchema.AoaDeg}
    ensures UpstreamKey(f) == UpstreamKey(g) ==> f == g
  {
  }

  lemma KeysDistinctFrom4(f: StateSchema.StateField, g: StateSchema.StateField)
    requires f in {StateSchema.AosDeg, StateSchema.Ny, StateSchema.VyMs, StateSchema.WxDegS}
    ensures UpstreamKey(f) == UpstreamKey(g) ==> f == g
  {
  }

  lemma KeysDistinctFrom5(f: StateSchema.StateField, g: StateSchema.StateField)
    requires f in {StateSchema.MfuelKg, StateSchema.Mfuel0Kg, StateSchema.Throttle1Percent, StateSchema.RpmThrottle1Percent}
    ensures UpstreamKey(f) == UpstreamKey(g) ==> f == g
  {
  }

  lemma KeysDistinctFrom6(f: StateSchema.StateField, g: StateSchema.StateField)
    requires f in {StateSchema.Mixture1Percent, StateSchema.Radiator1Percent, StateSchema.CompressorStage1, StateSchema.Magneto1}
    ensures UpstreamKey(f) == UpstreamKey(g) ==> f == g
  {
  }

  lemma KeysDistinctFrom7(f: StateSchema.StateField, g: StateSchema.StateField)
    requires f in {StateSchema.Power1Hp, StateSchema.Rpm1, StateSchema.ManifoldPressure1Atm, StateSchema.OilTemp1C}
    ensures UpstreamKey(f) == UpstreamKey(g) ==> f == g
  {
  }

  lemma KeysDistinctFrom8(f: StateSchema.StateField, g: StateSchema.StateField)
    requires f in {StateSchema.Pitch1Deg, StateSchema.Thrust1Kg, StateSchema.Efficiency1Percent}
    ensures UpstreamKey(f) == UpstreamKey(g) ==> f == g
  {
  }

  /** The value `get_state` passes for field `f`: `data.get(key)`, and `data.get("valid", False)` for `valid`. */
  function StateArgument(d: map<string, Json>, f: StateSchema.StateField): Json
  {
    if f == StateSchema.Valid then GetOr(d, "valid", JBool(false)) else Get(d, UpstreamKey(f))
  }

  /** The keyword arguments of the StateModel call. */
  function StateArguments(d: map<string, Json>): (m: map<string, Json>)
    ensures forall f :: Get(m, StateSchema.Name(f)) == StateArgument(d, f)
  {
    StateSchema.NameInjective();
    var m := map f | f in StateSchema.Fields :: StateSchema.Name(f) := StateArgument(d, f);
    forall f ensures Get(m, StateSchema.Name(f)) == StateArgument(d, f) {
      StateSchema.FieldsComplete(f);
      var g :| g in StateSchema.Fields && StateSchema.Name(g) == StateSchema.Name(f) && m[StateSchema.Name(f)] == StateArgument(d, g);
      StateSchema.NamesDistinct(f, g);
    }
    m
  }

  /** The body of `get_state` once the document is fetched. */
  function BuildState(data: Json): (r: Result<StateSchema.StateModel, Failure>)
    ensures !data.JObject? ==> r == Err(NoGetAttribute(data))
    ensures r.Ok? <==> data.JObject? && forall f :: Accepts(StateSchema.Spec(f), StateArgument(data.fields, f))
    ensures r.Ok? ==> forall f :: StateSchema.View(r.value, f)
                                   == Canon(StateSchema.Spec(f), StateArgument(data.fields, f))
    ensures data.JObject? && r.Err? ==>
      r.error.ValidationError? &&
      forall f :: StateSchema.Name(f) in r.error.fields <==> !Accepts(StateSchema.Spec(f), StateArgument(data.fields, f))
  {
    if data.JObject? then StateSchema.Validate(StateArguments(data.fields)) else Err(NoGetAttribute(data))
  }

  /** A document without `valid` reports the state as not valid. */
  lemma MissingValidIsFalse(d: map<string, Json>)
    requires "valid" !in d
    ensures BuildState(JObject(d)).Ok? ==> !BuildState(JObject(d)).value.valid
  {
    if BuildState(JObject(d)).Ok? {
      assert StateSchema.View(BuildState(JObject(d)).value, StateSchema.Valid) == JBool(false);
    }
  }

  /** A field whose telemetry key is absent is None. */
  lemma MissingKeyIsNone(d: map<string, Json>, f: StateSchema.StateField)
    requires f != StateSchema.Valid && UpstreamKey(f) !in d
    ensures BuildState(JObject(d)).Ok? ==> StateSchema.View(BuildState(JObject(d)).value, f) == JNull
  {
  }

  /** `get_state` reads only the keys of its table: documents that agree on them give the same answer. */
  lemma OnlyTableKeysRead(d1: map<string, Json>, d2: map<string, Json>)
    requires forall f :: StateArgument(d1, f) == StateArgument(d2, f)
    ensures BuildState(JObject(d1)) == BuildState(JObject(d2))
  {
    StateSchema.Extensional(StateArguments(d1), StateArguments(d2));
  }

  /**
   * A document holding none of the table's keys (the empty document, or one
   * that already uses the public field names) gives the not-valid state with
   * nothing reported.
   */
  lemma NoTableKeyGivesUnreported(d: map<string, Json>)
    requires forall f :: UpstreamKey(f) !in d
    ensures BuildState(JObject(d)) == Ok(StateSchema.Unreported)
  {
    var m := StateArguments(d);
    assert "valid" !in d by {
      assert UpstreamKey(StateSchema.Valid) == "valid";
    }
    StateSchema.NothingReported(m);
  }

  // ---------------------------------------------------------------------------
  // /map_objects: one record per element of the upstream list.

  /** `MapObjectIcon(v) if v else None`. */
  function OptionalIcon(raw: Json): (r: Result<Option<MapObjectIconEnum.MapObjectIcon>, Failure>)
    ensures !Truthy(raw) ==> r == Ok(None)
    ensures Truthy(raw) ==> (r.Ok? <==> raw.JString? && raw.s in MapObjectIconEnum.Values)
    ensures r.Ok? && r.value.Some? ==> JString(MapObjectIconEnum.Value(r.value.value)) == raw
    ensures r.Err? ==> r.error == InvalidEnum("MapObjectIcon", raw)
  {
    if Truthy(raw) then
      match MapObjectIconEnum.FromJson(raw)
      case Ok(icon) => Ok(Some(icon))
      case Err(e) => Err(e)
    else Ok(None)
  }

  /** `MapObjectIconBg(v) if v else None`. */
  function OptionalIconBg(raw: Json): (r: Result<Option<MapObjectIconBgEnum.MapObjectIconBg>, Failure>)
    ensures !Truthy(raw) ==> r == Ok(None)
    ensures Truthy(raw) ==> (r.Ok? <==> raw == JString("none"))
    ensures r.Ok? && r.value.Some? ==> raw == JString("none")
    ensures r.Err? ==> r.error == InvalidEnum("MapObjectIconBg", raw)
  {
    if Truthy(raw) then
      match MapObjectIconBgEnum.FromJson(raw)
      case Ok(bg) => Ok(Some(bg))
      case Err(e) => Err(e)
    else Ok(None)
  }

  /**
   * The value passed for field `f` of MapObjectModel, once the element's type,
   * icon and background are parsed: `color_hex` comes from key "color",
   * `color_rgb` from key "color[]", and every other field from its own name.
   */
  function MapObjectArgument(
    d: map<string, Json>,
    t: MapObjectTypeEnum.MapObjectType,
    icon: Option<MapObjectIconEnum.MapObjectIcon>,
    bg: Option<MapObjectIconBgEnum.MapObjectIconBg>,
    f: MapObjectSchema.MapObjectField): Json
  {
    match f
    case ObjectType => JString(MapObjectTypeEnum.Value(t))
    case Icon => MapObjectIconEnum.OptJson(icon)
    case IconBg => MapObjectIconBgEnum.OptJson(bg)
    case ColorHex => Get(d, "color")
    case ColorRgb => Get(d, "color[]")
    case _ => Get(d, MapObjectSchema.Name(f))
  }

  /** The keyword arguments of one MapObjectModel call. */
  function MapObjectArguments(
    d: map<string, Json>,
    t: MapObjectTypeEnum.MapObjectType,
    icon: Option<MapObjectIconEnum.MapObjectIcon>,
    bg: Option<MapObjectIconBgEnum.MapObjectIconBg>): (m: map<string, Json>)
    ensures forall f :: Get(m, MapObjectSchema.Name(f)) == MapObjectArgument(d, t, icon, bg, f)
  {
    MapObjectSchema.NameInjective();
    var m := map f | f in MapObjectSchema.Fields :: MapObjectSchema.Name(f) := MapObjectArgument(d, t, icon, bg, f);
    forall f ensures Get(m, MapObjectSchema.Name(f)) == MapObjectArgument(d, t, icon, bg, f) {
      MapObjectSchema.FieldsComplete(f);
      var g :| g in MapObjectSchema.Fields && MapObjectSchema.Name(g) == MapObjectSchema.Name(f)
               && m[MapObjectSchema.Name(f)] == MapObjectArgument(d, t, icon, bg, g);
      MapObjectSchema.NamesDistinct(f, g);
    }
    m
  }

  /** The fields taken from the element unchanged apart from int-to-float widening. */
  predicate Plain(f: MapObjectSchema.MapObjectField)
  {
    f !in {MapObjectSchema.ObjectType, MapObjectSchema.Icon, MapObjectSchema.IconBg,
           MapObjectSchema.ColorHex, MapObjectSchema.ColorRgb}
  }

  /**
   * One iteration of the loop in `get_map_objects`: `type` is parsed first,
   * then `icon` and `icon_bg` when truthy, and then the record is built.
   */
  function BuildMapObject(item: Json): (r: Result<MapObjectSchema.MapObjectModel, Failure>)
    ensures !item.JObject? ==> r == Err(NoGetAttribute(item))
    ensures r.Ok? <==>
      item.JObject? &&
      MapObjectTypeEnum.FromJson(Get(item.fields, "type")).Ok? &&
      OptionalIcon(Get(item.fields, "icon")).Ok? &&
      OptionalIconBg(Get(item.fields, "icon_bg")).Ok? &&
      MapObjectSchema.Conforms(MapObjectArguments(item.fields,
        MapObjectTypeEnum.FromJson(Get(item.fields, "type")).value,
        OptionalIcon(Get(item.fields, "icon")).value,
        OptionalIconBg(Get(item.fields, "icon_bg")).value))
    ensures item.JObject? && MapObjectTypeEnum.FromJson(Get(item.fields, "type")).Err? ==>
      r == Err(InvalidEnum("MapObjectType", Get(item.fields, "type")))
    ensures (item.JObject? && MapObjectTypeEnum.FromJson(Get(item.fields, "type")).Ok? &&
             OptionalIcon(Get(item.fields, "icon")).Err?) ==>
      r == Err(InvalidEnum("MapObjectIcon", Get(item.fields, "icon")))
    ensures (item.JObject? && MapObjectTypeEnum.FromJson(Get(item.fields, "type")).Ok? &&
             OptionalIcon(Get(item.fields, "icon")).Ok? && OptionalIconBg(Get(item.fields, "icon_bg")).Err?) ==>
      r == Err(InvalidEnum("MapObjectIconBg", Get(item.fields, "icon_bg")))
    ensures (item.JObject? && MapObjectTypeEnum.FromJson(Get(item.fields, "type")).Ok? &&
             OptionalIcon(Get(item.fields, "icon")).Ok? && OptionalIconBg(Get(item.fields, "icon_bg")).Ok? && r.Err?) ==>
      r.error.ValidationError? && r.error.model == "MapObjectModel"
    ensures r.Ok? ==> item.JObject?
    ensures r.Ok? ==> JString(MapObjectTypeEnum.Value(r.value.object_type)) == Get(item.fields, "type")
    ensures r.Ok? ==> (r.value.icon.Some? <==> Truthy(Get(item.fields, "icon")))
    ensures r.Ok? && r.value.icon.Some? ==> JString(MapObjectIconEnum.Value(r.value.icon.value)) == Get(item.fields, "icon")
    ensures r.Ok? ==> (r.value.icon_bg.Some? <==> Truthy(Get(item.fields, "icon_bg")))
    ensures r.Ok? ==> MapObjectSchema.View(r.value, MapObjectSchema.ColorHex) == Get(item.fields, "color")
    ensures r.Ok? ==> MapObjectSchema.View(r.value, MapObjectSchema.ColorRgb) == Get(item.fields, "color[]")
    ensures r.Ok? ==> forall f | Plain(f) :: MapObjectSchema.View(r.value, f)
                                             == Canon(MapObjectSchema.Spec(f), Get(item.fields, MapObjectSchema.Name(f)))
  {
    if !item.JObject? then Err(NoGetAttribute(item))
    else
      var d := item.fields;
      match MapObjectTypeEnum.FromJson(Get(d, "type"))
      case Err(e) => Err(e)
      case Ok(t) =>
        match OptionalIcon(Get(d, "icon"))
        case Err(e) => Err(e)
        case Ok(icon) =>
          match OptionalIconBg(Get(d, "icon_bg"))
          case Err(e) => Err(e)
          case Ok(bg) =>
            var args := MapObjectArguments(d, t, icon, bg);
            var r := MapObjectSchema.Validate(args);
            assert r.Ok? ==> forall f :: MapObjectSchema.View(r.value, f) == Canon(MapObjectSchema.Spec(f), MapObjectArgument(d, t, icon, bg, f));
            if r.Ok? then
              BuiltFields(d, t, icon, bg, r.value);
              r
            else r
  }

  /** What each field of a built record holds, in terms of the element and its parsed enums. */
  lemma BuiltFields(
    d: map<string, Json>,
    t: MapObjectTypeEnum.MapObjectType,
    icon: Option<MapObjectIconEnum.MapObjectIcon>,
    bg: Option<MapObjectIconBgEnum.MapObjectIconBg>,
    rec: MapObjectSchema.MapObjectModel)
    requires forall f :: MapObjectSchema.View(rec, f) == Canon(MapObjectSchema.Spec(f), MapObjectArgument(d, t, icon, bg, f))
    ensures rec.object_type == t && rec.icon == icon && rec.icon_bg == bg
    ensures MapObjectSchema.View(rec, MapObjectSchema.ColorHex) == Get(d, "color")
    ensures MapObjectSchema.View(rec, MapObjectSchema.ColorRgb) == Get(d, "color[]")
  {
    assert MapObjectSchema.View(rec, MapObjectSchema.ObjectType) == JString(MapObjectTypeEnum.Value(t));
    MapObjectTypeEnum.ValueInjective(rec.object_type, t);
    assert MapObjectSchema.View(rec, MapObjectSchema.Icon) == MapObjectIconEnum.OptJson(icon);
    MapObjectIconEnum.OptJsonInjective(rec.icon, icon);
    assert MapObjectSchema.View(rec, MapObjectSchema.IconBg) == MapObjectIconBgEnum.OptJson(bg);
    MapObjectIconBgEnum.OptJsonInjective(rec.icon_bg, bg);
    assert MapObjectSchema.View(rec, MapObjectSchema.ColorHex) == Canon(MapObjectSchema.Spec(MapObjectSchema.ColorHex), Get(d, "color"));
    assert MapObjectSchema.View(rec, MapObjectSchema.ColorRgb) == Canon(MapObjectSchema.Spec(MapObjectSchema.ColorRgb), Get(d, "color[]"));
  }

  /**
   * The loop of `get_map_objects` over the upstream document. A list gives one
   * record per element, in order, or the first element's failure; like Python's
   * `for`, an empty object or string gives no record, a non-empty one fails on
   * its first key or character (which has no `get`), and any other value is
   * not iterable.
   */
  method BuildMapObjects(data: Json) returns (r: Result<seq<MapObjectSchema.MapObjectModel>, Failure>)
    ensures data.JArray? ==> (r.Ok? <==> forall i :: 0 <= i < |data.items| ==> BuildMapObject(data.items[i]).Ok?)
    ensures data.JArray? && r.Ok? ==>
      |r.value| == |data.items| &&
      forall i :: 0 <= i < |data.items| ==> r.value[i] == BuildMapObject(data.items[i]).value
    ensures data.JArray? && r.Err? ==>
      exists k :: 0 <= k < |data.items| && BuildMapObject(data.items[k]) == Err(r.error) &&
        forall i :: 0 <= i < k ==> BuildMapObject(data.items[i]).Ok?
    ensures data.JObject? ==> (r.Ok? <==> data.fields == map[])
    ensures data.JObject? && r.Ok? ==> r.value == []
    ensures data.JObject? && r.Err? ==>
      r.error.NoGetAttribute? && r.error.payload.JString? && r.error.payload.s in data.fields
    ensures data.JString? ==> r == if data.s == "" then Ok([]) else Err(NoGetAttribute(JString(data.s[..1])))
    ensures data.JNull? || data.JBool? || data.JInt? || data.JReal? ==> r == Err(NotIterable(data))
  {
    match data
    case JArray(items) =>
      r := BuildEach(items, BuildMapObject);
    case JObject(fields) =>
      if fields == map[] {
        return Ok([]);
      }
      var key :| key in fields;
      return Err(NoGetAttribute(JString(key)));
    case JString(s) =>
      if s == "" {
        return Ok([]);
      }
      return Err(NoGetAttribute(JString(s[..1])));
    case _ =>
      return Err(NotIterable(data));
  }

  /**
   * The loop itself: `res.append(build(item))` for each element in order; the
   * first failure ends the loop and no partial list is returned.
   */
  method BuildEach<T>(items: seq<Json>, build: Json -> Result<T, Failure>) returns (r: Result<seq<T>, Failure>)
    ensures r.Ok? <==> forall i :: 0 <= i < |items| ==> build(items[i]).Ok?
    ensures r.Ok? ==> |r.value| == |items| && forall i :: 0 <= i < |items| ==> r.value[i] == build(items[i]).value
    ensures r.Err? ==>
      exists k :: 0 <= k < |items| && build(items[k]) == Err(r.error) &&
        forall i :: 0 <= i < k ==> build(items[i]).Ok?
  {
    var res: seq<T> := [];
    var i := 0;
    while i < |items|
      invariant 0 <= i <= |items|
      invariant |res| == i
      invariant forall k :: 0 <= k < i ==> build(items[k]).Ok? && res[k] == build(items[k]).value
    {
      var built := build(items[i]);
      if built.Err? {
        return Err(built.error);
      }
      res := res + [built.value];
      i := i + 1;
    }
    return Ok(res);
  }

  /** An element whose `type` is valid but whose icon is spelled "Boat" fails: the member's value is "boat". */
  lemma CapitalisedBoatRejected(item: Json)
    requires item.JObject? && Get(item.fields, "type") == JString("ground_model")
    requires Get(item.fields, "icon") == JString("Boat")
    ensures BuildMapObject(item) == Err(InvalidEnum("MapObjectIcon", JString("Boat")))
  {
    assert "Boat" !in MapObjectIconEnum.Values;
  }

  /** A missing or empty icon is not parsed and gives None, unlike the member "none"; an unknown one fails. */
  lemma FalsyIconSkipped()
    ensures OptionalIcon(JNull) == Ok(None) && OptionalIcon(JString("")) == Ok(None)
    ensures OptionalIcon(JString("none")) == Ok(Some(MapObjectIconEnum.NoneIcon))
    ensures OptionalIcon(JString("Boat")).Err? && OptionalIcon(JInt(3)).Err?
    ensures OptionalIconBg(JNull) == Ok(None) && OptionalIconBg(JString("None")).Err?
  {
    MapObjectIconEnum.ParseValue(MapObjectIconEnum.NoneIcon);
  }

  // ---------------------------------------------------------------------------
  // The application object.

  class App {
    var indicatorsUrl: string
    var stateUrl: string
    var mapInfoUrl: string
    var mapObjUrl: string

    /** `App(ip, port)`: the four URLs of the game's telemetry server. */
    constructor(ip: string := "localhost", port: int := 8111)
      ensures indicatorsUrl == UpstreamUrl(ip, port, IndicatorsPath)
      ensures stateUrl == UpstreamUrl(ip, port, StatePath)
      ensures mapInfoUrl == UpstreamUrl(ip, port, MapInfoPath)
      ensures mapObjUrl == UpstreamUrl(ip, port, MapObjPath)
    {
      indicatorsUrl := UpstreamUrl(ip, port, IndicatorsPath);
      stateUrl := UpstreamUrl(ip, port, StatePath);
      mapInfoUrl := UpstreamUrl(ip, port, MapInfoPath);
      mapObjUrl := UpstreamUrl(ip, port, MapObjPath);
    }

    /** GET /indicators. */
    method GetIndicators(upstream: string -> Result<Json, FetchError>) returns (resp: Response<IndicatorsSchema.IndicatorsModel>)
      ensures resp.Success? <==> upstream(indicatorsUrl).Ok? && BuildIndicators(upstream(indicatorsUrl).value).Ok?
      ensures resp.Success? ==> resp.body == BuildIndicators(upstream(indicatorsUrl).value).value
      ensures resp.HttpError? ==> resp.status == 502 && UnreachablePrefix <= resp.detail
    {
      var doc := Fetch(upstream, indicatorsUrl);
      resp := Respond(if doc.Ok? then BuildIndicators(doc.value) else Err(doc.error));
    }

    /** GET /map_info. */
    method GetMapInfo(upstream: string -> Result<Json, FetchError>) returns (resp: Response<MapInfoSchema.MapInfoModel>)
      ensures resp.Success? <==> upstream(mapInfoUrl).Ok? && BuildMapInfo(upstream(mapInfoUrl).value).Ok?
      ensures resp.Success? ==> resp.body == BuildMapInfo(upstream(mapInfoUrl).value).value
      ensures resp.HttpError? ==> resp.status == 502 && UnreachablePrefix <= resp.detail
    {
      var doc := Fetch(upstream, mapInfoUrl);
      resp := Respond(if doc.Ok? then BuildMapInfo(doc.value) else Err(doc.error));
    }

    /** GET /state. */
    method GetState(upstream: string -> Result<Json, FetchError>) returns (resp: Response<StateSchema.StateModel>)
      ensures resp.Success? <==> upstream(stateUrl).Ok? && BuildState(upstream(stateUrl).value).Ok?
      ensures resp.Success? ==> resp.body == BuildState(upstream(stateUrl).value).value
      ensures resp.HttpError? ==> resp.status == 502 && UnreachablePrefix <= resp.detail
    {
      var doc := Fetch(upstream, stateUrl);
      resp := Respond(if doc.Ok? then BuildState(doc.value) else Err(doc.error));
    }

    /** GET /map_objects: all the records, or a 502 and no partial list. */
    method GetMapObjects(upstream: string -> Result<Json, FetchError>) returns (resp: Response<seq<MapObjectSchema.MapObjectModel>>)
      ensures resp.Success? ==> upstream(mapObjUrl).Ok?
      ensures upstream(mapObjUrl).Ok? && upstream(mapObjUrl).value.JArray? ==>
        var items := upstream(mapObjUrl).value.items;
        (resp.Success? <==> forall i :: 0 <= i < |items| ==> BuildMapObject(items[i]).Ok?) &&
        (resp.Success? ==>
           (|resp.body| == |items| && forall i :: 0 <= i < |items| ==> resp.body[i] == BuildMapObject(items[i]).value))
      ensures upstream(mapObjUrl).Ok? && !upstream(mapObjUrl).value.JArray? ==>
        var data := upstream(mapObjUrl).value;
        (resp.Success? <==> data == JObject(map[]) || data == JString("")) &&
        (resp.Success? ==> resp.body == [])
      ensures resp.HttpError? ==> resp.status == 502 && UnreachablePrefix <= resp.detail
    {
      var doc := Fetch(upstream, mapObjUrl);
      if doc.Err? {
        resp := Respond(Err(doc.error));
      } else {
        var built := BuildMapObjects(doc.value);
        resp := Respond(built);
      }
    }
  }
}
