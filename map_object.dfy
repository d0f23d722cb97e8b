/**
 * `MapObjectModel`: one object drawn on the map. `type` (a MapObjectType
 * member) is required; the icon, its background, the colour (as text and
 * as an RGB list), the blink state, the position `x`/`y`, the direction
 * `dx`/`dy` and the zone corners `sx`/`sy`/`ex`/`ey` are optional. The
 * record field for `type` is `object_type`.
 */
module MapObjectSchema {
  import opened Wrappers
  import opened JsonValue
  import opened Failures
  import opened Validation
  import MapObjectTypeEnum
  import MapObjectIconEnum
  import MapObjectIconBgEnum

  /** The fields of MapObjectModel, one constructor each. */
  datatype MapObjectField =
    | ObjectType | Icon | IconBg | ColorHex | ColorRgb | Blink | X | Y | Dx | Dy | Sx | Sy | Ex
    | Ey

  /** The fields in declaration order. */
  const Fields: seq<MapObjectField> := [
    ObjectType, Icon, IconBg, ColorHex, ColorRgb, Blink, X, Y, Dx, Dy, Sx, Sy, Ex, Ey
  ]

  /** The name a field has in the JSON the record is built from and serialised to. */
  function Name(f: MapObjectField): string
  {
    match f
    case ObjectType => "type"
    case Icon => "icon"
    case IconBg => "icon_bg"
    case ColorHex => "color_hex"
    case ColorRgb => "color_rgb"
    case Blink => "blink"
    case X => "x"
    case Y => "y"
    case Dx => "dx"
    case Dy => "dy"
    case Sx => "sx"
    case Sy => "sy"
    case Ex => "ex"
    case Ey => "ey"
  }

  /** Each field's declared type. */
  function Spec(f: MapObjectField): FieldSpec
  {
    match f
    case ObjectType => Required(EnumKind(MapObjectTypeEnum.Values))
    case Icon => Optional(EnumKind(MapObjectIconEnum.Values))
    case IconBg => Optional(EnumKind(MapObjectIconBgEnum.Values))
    case ColorHex => Optional(StrKind)
    case ColorRgb => Optional(IntListKind)
    case Blink => Optional(IntKind)
    case X => Optional(FloatKind)
    case Y => Optional(FloatKind)
    case Dx => Optional(FloatKind)
    case Dy => Optional(FloatKind)
    case Sx => Optional(FloatKind)
    case Sy => Optional(FloatKind)
    case Ex => Optional(FloatKind)
    case Ey => Optional(FloatKind)
  }

  datatype MapObjectModel = MapObjectModel(
    object_type: MapObjectTypeEnum.MapObjectType,
    icon: Option<MapObjectIconEnum.MapObjectIcon>,
    icon_bg: Option<MapObjectIconBgEnum.MapObjectIconBg>,
    color_hex: Option<string>,
    color_rgb: Option<seq<int>>,
    blink: Option<int>,
    x: Option<real>,
    y: Option<real>,
    dx: Option<real>,
    dy: Option<real>,
    sx: Option<real>,
    sy: Option<real>,
    ex: Option<real>,
    ey: Option<real>
  )

  /** The JSON a record serialises field `f` to. */
  function View(rec: MapObjectModel, f: MapObjectField): Json
  {
    match f
    case ObjectType => JString(MapObjectTypeEnum.Value(rec.object_type))
    case Icon => MapObjectIconEnum.OptJson(rec.icon)
    case IconBg => MapObjectIconBgEnum.OptJson(rec.icon_bg)
    case ColorHex => OptStrJson(rec.color_hex)
    case ColorRgb => OptIntListJson(rec.color_rgb)
    case Blink => OptIntJson(rec.blink)
    case X => OptFloatJson(rec.x)
    case Y => OptFloatJson(rec.y)
    case Dx => OptFloatJson(rec.dx)
    case Dy => OptFloatJson(rec.dy)
    case Sx => OptFloatJson(rec.sx)
    case Sy => OptFloatJson(rec.sy)
    case Ex => OptFloatJson(rec.ex)
    case Ey => OptFloatJson(rec.ey)
  }

  lemma FieldsComplete(f: MapObjectField)
    ensures f in Fields
  {
  }

  /** No two fields share a name. */
  lemma NameInjective()
    ensures forall f: MapObjectField, g: MapObjectField :: Name(f) == Name(g) ==> f == g
  {
  }

  lemma NamesDistinct(f: MapObjectField, g: MapObjectField)
    ensures Name(f) == Name(g) ==> f == g
  {
    NameInjective();
  }

  /** Every field's value in `m` (None when absent) has the field's declared type. */
  predicate Conforms(m: map<string, Json>)
  {
    forall f :: Accepts(Spec(f), Get(m, Name(f)))
  }

  /** The record built from conforming keyword arguments. */
  function Decode(m: map<string, Json>): MapObjectModel
  {
    MapObjectModel(
      MapObjectTypeEnum.Of(Get(m, Name(ObjectType))),
      MapObjectIconEnum.OptOf(Get(m, Name(Icon))),
      MapObjectIconBgEnum.OptOf(Get(m, Name(IconBg))),
      OptStrOf(Get(m, Name(ColorHex))),
      OptIntListOf(Get(m, Name(ColorRgb))),
      OptIntOf(Get(m, Name(Blink))),
      OptFloatOf(Get(m, Name(X))),
      OptFloatOf(Get(m, Name(Y))),
      OptFloatOf(Get(m, Name(Dx))),
      OptFloatOf(Get(m, Name(Dy))),
      OptFloatOf(Get(m, Name(Sx))),
      OptFloatOf(Get(m, Name(Sy))),
      OptFloatOf(Get(m, Name(Ex))),
      OptFloatOf(Get(m, Name(Ey)))
    )
  }

  /** The names of the fields whose value in `m` does not have the declared type. */
  function RejectedNames(m: map<string, Json>): (names: set<string>)
    ensures forall f :: Name(f) in names <==> !Accepts(Spec(f), Get(m, Name(f)))
    ensures names == {} <==> Conforms(m)
  {
    assert forall f :: f in Fields by { forall f { FieldsComplete(f); } }
    var names := set f | f in Fields && !Accepts(Spec(f), Get(m, Name(f))) :: Name(f);
    assert forall f :: Name(f) in names ==> !Accepts(Spec(f), Get(m, Name(f))) by {
      forall f | Name(f) in names
        ensures !Accepts(Spec(f), Get(m, Name(f)))
      {
        var g :| g in Fields && !Accepts(Spec(g), Get(m, Name(g))) && Name(g) == Name(f);
        NamesDistinct(f, g);
      }
    }
    assert !Conforms(m) ==> names != {} by {
      if !Conforms(m) {
        var f :| !Accepts(Spec(f), Get(m, Name(f)));
        assert Name(f) in names;
      }
    }
    names
  }

  /** What a field of the decoded record serialises to, when the field accepts its argument. */
  lemma DecodeView(m: map<string, Json>, f: MapObjectField)
    requires Accepts(Spec(f), Get(m, Name(f)))
    ensures View(Decode(m), f) == Canon(Spec(f), Get(m, Name(f)))
  {
    match f
    case ObjectType => DecodesObjectType(m);
    case Icon => DecodesIcon(m);
    case IconBg => DecodesIconBg(m);
    case ColorHex => DecodesColorHex(m);
    case ColorRgb => DecodesColorRgb(m);
    case Blink => DecodesBlink(m);
    case X => DecodesX(m);
    case Y => DecodesY(m);
    case Dx => DecodesDx(m);
    case Dy => DecodesDy(m);
    case Sx => DecodesSx(m);
    case Sy => DecodesSy(m);
    case Ex => DecodesEx(m);
    case Ey => DecodesEy(m);
  }

  lemma DecodesObjectType(m: map<string, Json>)
    requires Accepts(Spec(ObjectType), Get(m, Name(ObjectType)))
    ensures View(Decode(m), ObjectType) == Canon(Spec(ObjectType), Get(m, Name(ObjectType)))
  {
    MapObjectTypeEnum.OfDecodes(Get(m, Name(ObjectType)));
  }

  lemma DecodesIcon(m: map<string, Json>)
    requires Accepts(Spec(Icon), Get(m, Name(Icon)))
    ensures View(Decode(m), Icon) == Canon(Spec(Icon), Get(m, Name(Icon)))
  {
    MapObjectIconEnum.OptOfDecodes(Get(m, Name(Icon)));
  }

  lemma DecodesIconBg(m: map<string, Json>)
    requires Accepts(Spec(IconBg), Get(m, Name(IconBg)))
    ensures View(Decode(m), IconBg) == Canon(Spec(IconBg), Get(m, Name(IconBg)))
  {
    MapObjectIconBgEnum.OptOfDecodes(Get(m, Name(IconBg)));
  }

  lemma DecodesColorHex(m: map<string, Json>)
    requires Accepts(Spec(ColorHex), Get(m, Name(ColorHex)))
    ensures View(Decode(m), ColorHex) == Canon(Spec(ColorHex), Get(m, Name(ColorHex)))
  {
    OptStrDecodes(Get(m, Name(ColorHex)));
  }

  lemma DecodesColorRgb(m: map<string, Json>)
    requires Accepts(Spec(ColorRgb), Get(m, Name(ColorRgb)))
    ensures View(Decode(m), ColorRgb) == Canon(Spec(ColorRgb), Get(m, Name(ColorRgb)))
  {
    OptIntListDecodes(Get(m, Name(ColorRgb)));
  }

  lemma DecodesBlink(m: map<string, Json>)
    requires Accepts(Spec(Blink), Get(m, Name(Blink)))
    ensures View(Decode(m), Blink) == Canon(Spec(Blink), Get(m, Name(Blink)))
  {
    OptIntDecodes(Get(m, Name(Blink)));
  }

  lemma DecodesX(m: map<string, Json>)
    requires Accepts(Spec(X), Get(m, Name(X)))
    ensures View(Decode(m), X) == Canon(Spec(X), Get(m, Name(X)))
  {
    OptFloatDecodes(Get(m, Name(X)));
  }

  lemma DecodesY(m: map<string, Json>)
    requires Accepts(Spec(Y), Get(m, Name(Y)))
    ensures View(Decode(m), Y) == Canon(Spec(Y), Get(m, Name(Y)))
  {
    OptFloatDecodes(Get(m, Name(Y)));
  }

  lemma DecodesDx(m: map<string, Json>)
    requires Accepts(Spec(Dx), Get(m, Name(Dx)))
    ensures View(Decode(m), Dx) == Canon(Spec(Dx), Get(m, Name(Dx)))
  {
    OptFloatDecodes(Get(m, Name(Dx)));
  }

  lemma DecodesDy(m: map<string, Json>)
    requires Accepts(Spec(Dy), Get(m, Name(Dy)))
    ensures View(Decode(m), Dy) == Canon(Spec(Dy), Get(m, Name(Dy)))
  {
    OptFloatDecodes(Get(m, Name(Dy)));
  }

  lemma DecodesSx(m: map<string, Json>)
    requires Accepts(Spec(Sx), Get(m, Name(Sx)))
    ensures View(Decode(m), Sx) == Canon(Spec(Sx), Get(m, Name(Sx)))
  {
    OptFloatDecodes(Get(m, Name(Sx)));
  }

  lemma DecodesSy(m: map<string, Json>)
    requires Accepts(Spec(Sy), Get(m, Name(Sy)))
    ensures View(Decode(m), Sy) == Canon(Spec(Sy), Get(m, Name(Sy)))
  {
    OptFloatDecodes(Get(m, Name(Sy)));
  }

  lemma DecodesEx(m: map<string, Json>)
    requires Accepts(Spec(Ex), Get(m, Name(Ex)))
    ensures View(Decode(m), Ex) == Canon(Spec(Ex), Get(m, Name(Ex)))
  {
    OptFloatDecodes(Get(m, Name(Ex)));
  }

  lemma DecodesEy(m: map<string, Json>)
    requires Accepts(Spec(Ey), Get(m, Name(Ey)))
    ensures View(Decode(m), Ey) == Canon(Spec(Ey), Get(m, Name(Ey)))
  {
    OptFloatDecodes(Get(m, Name(Ey)));
  }

  /**
   * `MapObjectModel(**m)`: the record when every field conforms, otherwise a
   * validation error naming every field that does not. Keys of `m` that name
   * no field are ignored.
   */
  function Validate(m: map<string, Json>): (r: Result<MapObjectModel, Failure>)
    ensures r.Ok? <==> Conforms(m)
    ensures r.Ok? ==> forall f :: View(r.value, f) == Canon(Spec(f), Get(m, Name(f)))
    ensures r.Err? ==> r.error.ValidationError? && r.error.model == "MapObjectModel"
    ensures r.Err? ==> forall f :: Name(f) in r.error.fields <==> !Accepts(Spec(f), Get(m, Name(f)))
  {
    if Conforms(m) then
      assert forall f :: View(Decode(m), f) == Canon(Spec(f), Get(m, Name(f))) by {
        forall f { DecodeView(m, f); }
      }
      Ok(Decode(m))
    else Err(ValidationError("MapObjectModel", RejectedNames(m)))
  }

  /** One field of the wrong type is enough for construction to fail, and the error names it. */
  lemma FieldRejected(m: map<string, Json>, f: MapObjectField)
    requires !Accepts(Spec(f), Get(m, Name(f)))
    ensures Validate(m).Err?
    ensures Name(f) in Validate(m).error.fields
  {
  }

  /** Construction reads only the fields' own names: keys of `m` that name no field are ignored. */
  lemma Extensional(m1: map<string, Json>, m2: map<string, Json>)
    requires forall f :: Get(m1, Name(f)) == Get(m2, Name(f))
    ensures Validate(m1) == Validate(m2)
  {
    if Conforms(m1) {
      ViewInjective(Validate(m1).value, Validate(m2).value);
    } else {
      assert RejectedNames(m1) == RejectedNames(m2) by {
        RejectedNamesFrom(m1, m2);
        RejectedNamesFrom(m2, m1);
      }
    }
  }

  lemma RejectedNamesFrom(m1: map<string, Json>, m2: map<string, Json>)
    requires forall f :: Get(m1, Name(f)) == Get(m2, Name(f))
    ensures RejectedNames(m1) <= RejectedNames(m2)
  {
    forall k | k in RejectedNames(m1) ensures k in RejectedNames(m2) {
      var f :| f in Fields && !Accepts(Spec(f), Get(m1, Name(f))) && Name(f) == k;
      assert Get(m1, Name(f)) == Get(m2, Name(f));
    }
  }

  /** A required field that is missing (or null) fails construction, and the error names it. */
  lemma MissingRequiredRejected(m: map<string, Json>, f: MapObjectField)
    requires Spec(f).Required? && Get(m, Name(f)) == JNull
    ensures Validate(m).Err?
    ensures Name(f) in Validate(m).error.fields
  {
    assert !Accepts(Spec(f), JNull);
  }

  /** The keyword arguments a record serialises to: one entry per field. */
  function ToMap(rec: MapObjectModel): (m: map<string, Json>)
    ensures forall f :: Name(f) in m && m[Name(f)] == View(rec, f)
  {
    NameInjective();
    assert forall f :: f in Fields by { forall f { FieldsComplete(f); } }
    map f | f in Fields :: Name(f) := View(rec, f)
  }

  /** A record is determined by what its fields serialise to. */
  lemma ViewInjective(a: MapObjectModel, b: MapObjectModel)
    requires forall f :: View(a, f) == View(b, f)
    ensures a == b
  {
    ViewInjectivePart1(a, b);
    ViewInjectivePart2(a, b);
    ViewInjectivePart3(a, b);
    ViewInjectivePart4(a, b);
  }

  lemma ViewInjectivePart1(a: MapObjectModel, b: MapObjectModel)
    requires forall f :: View(a, f) == View(b, f)
    ensures a.object_type == b.object_type && a.icon == b.icon && a.icon_bg == b.icon_bg && a.color_hex == b.color_hex
  {
    assert a.object_type == b.object_type by { assert View(a, ObjectType) == View(b, ObjectType); MapObjectTypeEnum.ValueInjective(a.object_type, b.object_type); }
    assert a.icon == b.icon by { assert View(a, Icon) == View(b, Icon); MapObjectIconEnum.OptJsonInjective(a.icon, b.icon); }
    assert a.icon_bg == b.icon_bg by { assert View(a, IconBg) == View(b, IconBg); MapObjectIconBgEnum.OptJsonInjective(a.icon_bg, b.icon_bg); }
    assert a.color_hex == b.color_hex by { assert View(a, ColorHex) == View(b, ColorHex); }
  }

  lemma ViewInjectivePart2(a: MapObjectModel, b: MapObjectModel)
    requires forall f :: View(a, f) == View(b, f)
    ensures a.color_rgb == b.color_rgb && a.blink == b.blink && a.x == b.x && a.y == b.y
  {
    OptIntListRoundTrip(a.color_rgb);
    OptIntListRoundTrip(b.color_rgb);
    assert a.color_rgb == b.color_rgb by { assert View(a, ColorRgb) == View(b, ColorRgb); }
    assert a.blink == b.blink by { assert View(a, Blink) == View(b, Blink); }
    assert a.x == b.x by { assert View(a, X) == View(b, X); }
    assert a.y == b.y by { assert View(a, Y) == View(b, Y); }
  }

  lemma ViewInjectivePart3(a: MapObjectModel, b: MapObjectModel)
    requires forall f :: View(a, f) == View(b, f)
    ensures a.dx == b.dx && a.dy == b.dy && a.sx == b.sx && a.sy == b.sy
  {
    assert a.dx == b.dx by { assert View(a, Dx) == View(b, Dx); }
    assert a.dy == b.dy by { assert View(a, Dy) == View(b, Dy); }
    assert a.sx == b.sx by { assert View(a, Sx) == View(b, Sx); }
    assert a.sy == b.sy by { assert View(a, Sy) == View(b, Sy); }
  }

  lemma ViewInjectivePart4(a: MapObjectModel, b: MapObjectModel)
    requires forall f :: View(a, f) == View(b, f)
    ensures a.ex == b.ex && a.ey == b.ey
  {
    assert a.ex == b.ex by { assert View(a, Ex) == View(b, Ex); }
    assert a.ey == b.ey by { assert View(a, Ey) == View(b, Ey); }
  }

  /** Serialising a record and validating the result gives the record back. */
  lemma RoundTrip(rec: MapObjectModel)
    ensures Validate(ToMap(rec)) == Ok(rec)
  {
    var m := ToMap(rec);
    forall f
      ensures Get(m, Name(f)) == View(rec, f) && Accepts(Spec(f), View(rec, f))
      ensures Canon(Spec(f), View(rec, f)) == View(rec, f)
    {
      ViewCanonical(rec, f);
    }
    ViewInjective(Validate(m).value, rec);
  }

  /** What a field serialises to has the declared type and is already in canonical form. */
  lemma ViewCanonical(rec: MapObjectModel, f: MapObjectField)
    ensures Accepts(Spec(f), View(rec, f))
    ensures Canon(Spec(f), View(rec, f)) == View(rec, f)
  {
    match f
    case ObjectType => MapObjectTypeEnum.ParseValue(rec.object_type);
    case Icon => if rec.icon.Some? { MapObjectIconEnum.ParseValue(rec.icon.value); }
    case IconBg => if rec.icon_bg.Some? { MapObjectIconBgEnum.ParseValue(); }
    case ColorRgb => OptIntListRoundTrip(rec.color_rgb);
    case _ =>
  }

  /** `type` is the only required field. */
  lemma OnlyTypeRequired(f: MapObjectField)
    ensures Spec(f).Required? <==> f == ObjectType
    ensures Spec(f) == Optional(FloatKind) <==> f in {X, Y, Dx, Dy, Sx, Sy, Ex, Ey}
    ensures Spec(f) == Optional(IntKind) <==> f == Blink
  {
  }

  /**
   * The colour fields are checked for type only: any string is a `color_hex`
   * and any integer list, of any length, a `color_rgb`.
   */
  lemma AnyColourAccepted(hex: string, rgb: seq<int>)
    ensures Accepts(Spec(ColorHex), JString(hex))
    ensures Accepts(Spec(ColorRgb), IntListJson(rgb))
  {
    OptIntListRoundTrip(Some(rgb));
  }

  /** The coordinates are independent optional numbers with no range check: any real, or None, is accepted. */
  lemma AnyCoordinateAccepted(f: MapObjectField, r: real)
    requires f in {X, Y, Dx, Dy, Sx, Sy, Ex, Ey}
    ensures Accepts(Spec(f), JReal(r)) && Accepts(Spec(f), JNull)
  {
  }
}
