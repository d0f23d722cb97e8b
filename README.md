# War Thunder dashboard gateway: telemetry normalisation and validation

The dashboard's backend is a small HTTP gateway in front of the game's local
telemetry server. It has four endpoints: `/indicators`, `/state`,
`/map_info` and `/map_objects`. Each one fetches one JSON document from the game,
turns it into a typed record (or a list of records) and returns it. Every
failure on the way becomes a 502 answer whose detail starts with
"Upstream service unreachable: ".

This project models the layer between the raw JSON and the typed records:

- `wrappers.dfy`, `json.dfy` and `failures.dfy` hold the building blocks.
  - `Option` and `Result` types.
  - A `Json` value with Python's `dict.get`, `dict.get(key, default)` and truthiness.
  - The ways a request can fail.
- `validation.dfy` holds the field types a record declares.
  - `bool`, `str`, `int`, `float`, `List[int]`, `List[float]`, string enums, and `Optional[...]` of each.
  - Which JSON values each type takes, and the value it stores.
  - A float field also takes an integer and stores it as a float.
- `army_enum.py`, `map_object_type.py`, `map_object_icon.py` and `map_object_icon_bg.py` become four closed-set enums.
  - Each is parsed by an exact, case-sensitive match of its members' values.
- `state.dfy`, `indicators.dfy`, `map_object.dfy` and `map_info.dfy` model the four record classes.
  - Each has one field constructor per declared field, the field's JSON name and declared type, and the record datatype.
  - `Validate` is the record's construction from keyword arguments. It gives the record when every field holds a value of its type, and otherwise a validation error naming every field that does not.
  - Keyword arguments that name no field are ignored.
- `compass.dfy` covers `CompassDirection.get_direction`, the eight half-open 45-degree sectors, and `CompassModel`.
- `urls.dfy` builds the four upstream URLs `http://{ip}:{port}/{path}`.
  - The port is printed in decimal, as `str` prints it.
- `app.dfy` holds the gateway itself.
  - The `App` class and its four URL fields.
  - The `get_state` key table, which maps thirty-one telemetry keys with units and spaces to the public field names.
  - The `get_map_objects` loop, a method that builds one record per upstream element in order and stops at the first failure.
  - The shared handling that turns any failure into a 502.

The fetch is not simulated. Each handler method takes the upstream server as a
function from URL to a `Result` holding the decoded document or the reason
there is none.

## Model

| member | source | states |
|---|---|---|
| Compass.GetDirection | backend/Fastapi_WarThunder/schemas/compass.py:21-39 | always succeeds (the raising branch is unreachable for every real heading), and the direction's half-open sector holds the heading; North takes everything below 22.5 or from 337.5 on |
| Compass.GetDirectionIff | backend/Fastapi_WarThunder/schemas/compass.py:22-37 | the sectors partition the reals: the result is `d` exactly when `d`'s sector holds the heading |
| Compass.GetDirectionByDivision | backend/Fastapi_WarThunder/schemas/compass.py:22-37 | on [0, 360) the chain agrees with the independent formula floor((h + 22.5) / 45) mod 8 over the clockwise order |
| Compass.BoundariesGoUp | backend/Fastapi_WarThunder/schemas/compass.py:22-37 | 22.5 gives NE, 67.5 gives E, 292.5 gives NW, 337.5 gives N; values just below a boundary stay in the lower sector |
| Compass.OutsideCircleIsNorth | backend/Fastapi_WarThunder/schemas/compass.py:22-23 | 360 and -1 give N rather than an error |
| Compass.CentresMapToThemselves | backend/Fastapi_WarThunder/schemas/compass.py:22-37 | 0, 45, …, 315 give N, NE, …, NW |
| Compass.ValueInjective | backend/Fastapi_WarThunder/schemas/compass.py:10-18 | the eight direction strings are pairwise distinct |
| Compass.NewCompassModel | backend/Fastapi_WarThunder/schemas/compass.py:56-57 | construction cannot fail, keeps the heading and stores the direction `get_direction` gives for it |
| ArmyEnum.Parse | backend/Fastapi_WarThunder/schemas/Official/Enum/army_enum.py:8-15 | succeeds exactly on "air", "ground", "navy"; the member's value is the input; anything else is an invalid-enum error carrying the input |
| ArmyEnum.ParseValue | backend/Fastapi_WarThunder/schemas/Official/Enum/army_enum.py:13-15 | every member's value parses back to that member |
| ArmyEnum.ValueInjective | backend/Fastapi_WarThunder/schemas/Official/Enum/army_enum.py:13-15 | the three values are distinct |
| ArmyEnum.RejectsOtherSpellings | backend/Fastapi_WarThunder/schemas/Official/Enum/army_enum.py:13-15 | "space", "Air", " air" and "AIR" are rejected |
| ArmyEnum.OfDecodes | backend/Fastapi_WarThunder/schemas/Official/indicators.py:79 | an enum field stores the member whose value is the accepted string |
| MapObjectTypeEnum.Parse | backend/Fastapi_WarThunder/schemas/Official/Enum/map_object_type.py:8-16 | succeeds exactly on the four values, returning the member whose value is the input |
| MapObjectTypeEnum.FromJson | backend/Fastapi_WarThunder/app.py:636 | `MapObjectType(item.get("type"))`: only a string that is a member's value succeeds; null and other JSON kinds are rejected |
| MapObjectTypeEnum.ParseValue | backend/Fastapi_WarThunder/schemas/Official/Enum/map_object_type.py:13-16 | every member's value parses back to that member |
| MapObjectTypeEnum.ValueInjective | backend/Fastapi_WarThunder/schemas/Official/Enum/map_object_type.py:13-16 | the four values are distinct |
| MapObjectTypeEnum.RejectsVariantsAndNull | backend/Fastapi_WarThunder/schemas/Official/Enum/map_object_type.py:13-16 | "Aircraft", "AIRCRAFT", "ground model" and a missing type are rejected |
| MapObjectTypeEnum.OfDecodes | backend/Fastapi_WarThunder/schemas/Official/map_object.py:48 | the `type` field stores the member whose value is the accepted string |
| MapObjectIconEnum.Parse | backend/Fastapi_WarThunder/schemas/Official/Enum/map_object_icon.py:8-22 | succeeds exactly on the ten spellings, returning the member whose value is the input |
| MapObjectIconEnum.FromJson | backend/Fastapi_WarThunder/app.py:637 | only a string that is a member's value succeeds |
| MapObjectIconEnum.ParseValue | backend/Fastapi_WarThunder/schemas/Official/Enum/map_object_icon.py:13-22 | every member's value parses back to that member |
| MapObjectIconEnum.ValueInjective | backend/Fastapi_WarThunder/schemas/Official/Enum/map_object_icon.py:13-22 | the ten values are pairwise distinct |
| MapObjectIconEnum.ExactSpellings | backend/Fastapi_WarThunder/schemas/Official/Enum/map_object_icon.py:15-22 | "LightTank", "boat" and "none" are members; "lighttank", "Boat" and "None" are not |
| MapObjectIconEnum.OptOfDecodes | backend/Fastapi_WarThunder/schemas/Official/map_object.py:49 | the optional icon field stores None for null and otherwise the member whose value is the string |
| MapObjectIconEnum.OptJsonInjective | backend/Fastapi_WarThunder/schemas/Official/map_object.py:49 | distinct optional icons serialise differently |
| MapObjectIconBgEnum.Parse | backend/Fastapi_WarThunder/schemas/Official/Enum/map_object_icon_bg.py:8-13 | succeeds exactly on "none", always with the single member |
| MapObjectIconBgEnum.FromJson | backend/Fastapi_WarThunder/app.py:638-639 | only the JSON string "none" succeeds |
| MapObjectIconBgEnum.ParseValue | backend/Fastapi_WarThunder/schemas/Official/Enum/map_object_icon_bg.py:13 | "none" parses to the single member |
| MapObjectIconBgEnum.RejectsOtherSpellings | backend/Fastapi_WarThunder/schemas/Official/Enum/map_object_icon_bg.py:13 | "None", "NONE" and "" are rejected |
| MapObjectIconBgEnum.OptOfDecodes | backend/Fastapi_WarThunder/schemas/Official/map_object.py:50 | the optional background field stores None for null and the member for "none" |
| MapObjectIconBgEnum.OptJsonInjective | backend/Fastapi_WarThunder/schemas/Official/map_object.py:50 | distinct optional backgrounds serialise differently |
| Validation.BoolDecodes | backend/Fastapi_WarThunder/schemas/Official/state.py:80 | a `bool` field stores the accepted boolean |
| Validation.StrDecodes | backend/Fastapi_WarThunder/schemas/Official/indicators.py:80 | a `str` field stores the accepted string |
| Validation.FloatListDecodes | backend/Fastapi_WarThunder/schemas/Official/map_info.py:33-35 | a `List[float]` field stores the accepted numbers, integers widened to floats |
| Validation.OptFloatDecodes | backend/Fastapi_WarThunder/schemas/Official/state.py:81 | an `Optional[float]` field stores None for null and the number, widened, otherwise |
| Validation.OptIntDecodes | backend/Fastapi_WarThunder/schemas/Official/state.py:102-103 | an `Optional[int]` field stores None for null and the integer otherwise |
| Validation.OptStrDecodes | backend/Fastapi_WarThunder/schemas/Official/map_object.py:51 | an `Optional[str]` field stores None for null and the string otherwise |
| Validation.OptIntListDecodes | backend/Fastapi_WarThunder/schemas/Official/map_object.py:52 | an `Optional[List[int]]` field stores None for null and the integers otherwise |
| Validation.FloatListRoundTrip | backend/Fastapi_WarThunder/schemas/Official/map_info.py:33-35 | a stored float list serialises to JSON the field accepts and that decodes to the same list |
| Validation.OptIntListRoundTrip | backend/Fastapi_WarThunder/schemas/Official/map_object.py:52 | a stored optional integer list serialises to JSON the field accepts and that decodes to the same value |
| StateSchema.Validate | backend/Fastapi_WarThunder/schemas/Official/state.py:80-110 | `StateModel(**m)` succeeds exactly when every field's argument (None when absent) has its declared type; each stored field serialises to its argument; otherwise the error names exactly the fields that do not conform |
| StateSchema.RejectedNames | backend/Fastapi_WarThunder/schemas/Official/state.py:80-110 | a field's name is rejected exactly when its argument does not conform, and nothing is rejected exactly when all conform |
| StateSchema.FieldRejected | backend/Fastapi_WarThunder/schemas/Official/state.py:80-110 | one field of the wrong type makes construction fail, and the error names it |
| StateSchema.Extensional | backend/Fastapi_WarThunder/schemas/Official/state.py:80-110 | construction depends only on the arguments named after fields; other keys are ignored |
| StateSchema.MissingRequiredRejected | backend/Fastapi_WarThunder/schemas/Official/state.py:80 | a missing required field makes construction fail, and the error names it |
| StateSchema.ToMap | backend/Fastapi_WarThunder/schemas/Official/state.py:80-110 | a record serialises to one entry per field, under the field's name |
| StateSchema.ViewInjective | backend/Fastapi_WarThunder/schemas/Official/state.py:80-110 | two records whose fields serialise alike are equal |
| StateSchema.RoundTrip | backend/Fastapi_WarThunder/schemas/Official/state.py:80-110 | validating a record's serialisation gives the record back |
| StateSchema.ViewCanonical | backend/Fastapi_WarThunder/schemas/Official/state.py:80-110 | each serialised field has its declared type and is already in stored form |
| StateSchema.OnlyValidRequired | backend/Fastapi_WarThunder/schemas/Official/state.py:80-110 | `valid` is the only required field; every other field admits None |
| StateSchema.IntegerFields | backend/Fastapi_WarThunder/schemas/Official/state.py:81-110 | `compressor_stage1` and `magneto1` are the integer fields; all other optional fields are floats |
| StateSchema.UnreportedViews | backend/Fastapi_WarThunder/schemas/Official/state.py:81-110 | the not-valid record with nothing reported has None in every optional field |
| StateSchema.NothingReported | backend/Fastapi_WarThunder/schemas/Official/state.py:80-110 | `valid=False` with every optional field None can be constructed, and gives that record |
| StateSchema.WrongTypeRejected | backend/Fastapi_WarThunder/schemas/Official/state.py:87 | a string altitude `H_m` fails construction, naming `H_m` |
| IndicatorsSchema.Validate | backend/Fastapi_WarThunder/schemas/Official/indicators.py:78-106 | as for StateModel: success exactly when every field conforms, stored values equal the arguments, and the error names exactly the non-conforming fields |
| IndicatorsSchema.RejectedNames | backend/Fastapi_WarThunder/schemas/Official/indicators.py:78-106 | rejected names are exactly the non-conforming fields |
| IndicatorsSchema.FieldRejected | backend/Fastapi_WarThunder/schemas/Official/indicators.py:78-106 | one field of the wrong type makes construction fail, and the error names it |
| IndicatorsSchema.Extensional | backend/Fastapi_WarThunder/schemas/Official/indicators.py:78-106 | keys that name no field are ignored |
| IndicatorsSchema.MissingRequiredRejected | backend/Fastapi_WarThunder/schemas/Official/indicators.py:78-80 | a missing `valid`, `army` or `type` fails construction and is named |
| IndicatorsSchema.ToMap | backend/Fastapi_WarThunder/schemas/Official/indicators.py:78-106 | one entry per field under the field's name |
| IndicatorsSchema.ViewInjective | backend/Fastapi_WarThunder/schemas/Official/indicators.py:78-106 | records are determined by their serialised fields |
| IndicatorsSchema.RoundTrip | backend/Fastapi_WarThunder/schemas/Official/indicators.py:78-106 | validating a record's serialisation gives the record back |
| IndicatorsSchema.ViewCanonical | backend/Fastapi_WarThunder/schemas/Official/indicators.py:78-106 | each serialised field has its declared type and is in stored form |
| IndicatorsSchema.RequiredFields | backend/Fastapi_WarThunder/schemas/Official/indicators.py:78-106 | `valid`, `army` and `type` are the only required fields; all others admit None |
| IndicatorsSchema.IntegerFields | backend/Fastapi_WarThunder/schemas/Official/indicators.py:81-106 | the three gear lamps and four blisters are the 7 integer fields; the other 19 optional fields are floats |
| IndicatorsSchema.Bare | backend/Fastapi_WarThunder/schemas/Official/indicators.py:78-106 | the record with the three required values has None in every optional field |
| IndicatorsSchema.RequiredFieldsSuffice | backend/Fastapi_WarThunder/schemas/Official/indicators.py:78-106 | the three required fields alone are enough to construct a record |
| IndicatorsSchema.UnknownArmyRejected | backend/Fastapi_WarThunder/schemas/Official/indicators.py:79 | army "space", or no army, fails construction, naming `army` |
| IndicatorsSchema.AnyVehicleName | backend/Fastapi_WarThunder/schemas/Official/indicators.py:80 | any string is a valid `type` and is stored unchanged |
| MapObjectSchema.Validate | backend/Fastapi_WarThunder/schemas/Official/map_object.py:48-67 | success exactly when every field conforms; stored values equal the arguments; the error names exactly the non-conforming fields |
| MapObjectSchema.RejectedNames | backend/Fastapi_WarThunder/schemas/Official/map_object.py:48-67 | rejected names are exactly the non-conforming fields |
| MapObjectSchema.FieldRejected | backend/Fastapi_WarThunder/schemas/Official/map_object.py:48-67 | one field of the wrong type makes construction fail, and the error names it |
| MapObjectSchema.Extensional | backend/Fastapi_WarThunder/schemas/Official/map_object.py:48-67 | keys that name no field are ignored |
| MapObjectSchema.MissingRequiredRejected | backend/Fastapi_WarThunder/schemas/Official/map_object.py:48 | a missing `type` fails construction and is named |
| MapObjectSchema.ToMap | backend/Fastapi_WarThunder/schemas/Official/map_object.py:48-67 | one entry per field under the field's name |
| MapObjectSchema.ViewInjective | backend/Fastapi_WarThunder/schemas/Official/map_object.py:48-67 | records are determined by their serialised fields |
| MapObjectSchema.RoundTrip | backend/Fastapi_WarThunder/schemas/Official/map_object.py:48-67 | validating a record's serialisation gives the record back |
| MapObjectSchema.ViewCanonical | backend/Fastapi_WarThunder/schemas/Official/map_object.py:48-67 | each serialised field has its declared type and is in stored form |
| MapObjectSchema.OnlyTypeRequired | backend/Fastapi_WarThunder/schemas/Official/map_object.py:48-67 | `type` is the only required field; the eight coordinates are exactly the optional float fields; `blink` is the only optional int |
| MapObjectSchema.AnyColourAccepted | backend/Fastapi_WarThunder/schemas/Official/map_object.py:51-52 | any string is a `color_hex` and any integer list, of any length, a `color_rgb` |
| MapObjectSchema.AnyCoordinateAccepted | backend/Fastapi_WarThunder/schemas/Official/map_object.py:56-67 | every coordinate takes any real number or None: no range check and no group rule |
| MapInfoSchema.Validate | backend/Fastapi_WarThunder/schemas/Official/map_info.py:33-40 | success exactly when every field conforms; stored values equal the arguments, integer coordinates widened to floats; the error names exactly the non-conforming fields |
| MapInfoSchema.RejectedNames | backend/Fastapi_WarThunder/schemas/Official/map_info.py:33-40 | rejected names are exactly the non-conforming fields |
| MapInfoSchema.FieldRejected | backend/Fastapi_WarThunder/schemas/Official/map_info.py:33-40 | a type mismatch fails construction, and the error names the field |
| MapInfoSchema.Extensional | backend/Fastapi_WarThunder/schemas/Official/map_info.py:33-40 | keys that name no field are ignored |
| MapInfoSchema.MissingRequiredRejected | backend/Fastapi_WarThunder/schemas/Official/map_info.py:33-40 | a missing coordinate list or `valid` fails construction and is named |
| MapInfoSchema.ToMap | backend/Fastapi_WarThunder/schemas/Official/map_info.py:33-40 | one entry per field under the field's name |
| MapInfoSchema.ViewInjective | backend/Fastapi_WarThunder/schemas/Official/map_info.py:33-40 | records are determined by their serialised fields |
| MapInfoSchema.RoundTrip | backend/Fastapi_WarThunder/schemas/Official/map_info.py:33-40 | validating a record's serialisation gives the record back |
| MapInfoSchema.ViewCanonical | backend/Fastapi_WarThunder/schemas/Official/map_info.py:33-40 | each serialised field has its declared type and is in stored form |
| MapInfoSchema.RequiredFields | backend/Fastapi_WarThunder/schemas/Official/map_info.py:33-40 | `hud_type` and `map_generation` are the only optional fields; the five coordinate lists are exactly the `List[float]` fields |
| MapInfoSchema.AnyLengthAccepted | backend/Fastapi_WarThunder/schemas/Official/map_info.py:33 | a coordinate list of any length is accepted |
| MapInfoSchema.IntegerStepsBecomeFloats | backend/Fastapi_WarThunder/schemas/Official/map_info.py:34 | `grid_steps` [5500, 5500] is stored as [5500.0, 5500.0] |
| UpstreamUrls.Digits | backend/Fastapi_WarThunder/app.py:28 | a non-negative port prints as at least one decimal digit with no leading zero |
| UpstreamUrls.DigitsRoundTrip | backend/Fastapi_WarThunder/app.py:28 | reading the printed digits back gives the number |
| UpstreamUrls.DecimalString | backend/Fastapi_WarThunder/app.py:28 | the printed port starts with a minus sign exactly when it is negative |
| UpstreamUrls.DecimalStringInjective | backend/Fastapi_WarThunder/app.py:28 | different ports print differently |
| UpstreamUrls.UrlDeterminesPath | backend/Fastapi_WarThunder/app.py:27-42 | for one server, different paths give different URLs |
| UpstreamUrls.UrlDeterminesPort | backend/Fastapi_WarThunder/app.py:27-42 | for one address and path, different ports give different URLs |
| UpstreamUrls.FourUrlsDistinct | backend/Fastapi_WarThunder/app.py:17-20 | the four documents have four different URLs |
| UpstreamUrls.DefaultStateUrl | backend/Fastapi_WarThunder/app.py:24-25 | with the default address and port the state URL is http://localhost:8111/state |
| WarThunderApp.App.constructor | backend/Fastapi_WarThunder/app.py:22-42 | each URL field is `http://{ip}:{port}/{path}` for its document's path; the address defaults to localhost and the port to 8111 |
| WarThunderApp.Respond | backend/Fastapi_WarThunder/app.py:138-139 | a result answers with its value; any failure answers 502 with a detail that starts "Upstream service unreachable: " followed by the failure's description |
| WarThunderApp.Fetch | backend/Fastapi_WarThunder/app.py:133-136 | the fetched document, or the fetch failure as the reason the upstream is unreachable |
| WarThunderApp.BuildIndicators | backend/Fastapi_WarThunder/app.py:137 | `IndicatorsModel(**data)`: a non-mapping fails; otherwise success exactly when the document conforms, with each field holding the document's value under its name |
| WarThunderApp.BuildMapInfo | backend/Fastapi_WarThunder/app.py:183 | `MapInfoModel(**data)`, with the same contract |
| WarThunderApp.UpstreamKeysDistinct | backend/Fastapi_WarThunder/app.py:723-753 | the thirty-one telemetry keys are pairwise distinct, so each key feeds exactly one field |
| WarThunderApp.StateArguments | backend/Fastapi_WarThunder/app.py:722-754 | the keyword argument for each field is the document's value under that field's telemetry key (None when absent), and `valid` defaults to False |
| WarThunderApp.BuildState | backend/Fastapi_WarThunder/app.py:721-754 | a non-mapping fails on `get`; otherwise success exactly when every looked-up value conforms; stored fields equal the looked-up values; the error names exactly the non-conforming fields |
| WarThunderApp.MissingValidIsFalse | backend/Fastapi_WarThunder/app.py:723 | a document without "valid" gives a state with `valid` false |
| WarThunderApp.MissingKeyIsNone | backend/Fastapi_WarThunder/app.py:724-753 | a field whose telemetry key is absent is None |
| WarThunderApp.OnlyTableKeysRead | backend/Fastapi_WarThunder/app.py:722-754 | documents that agree on the table's keys give the same answer |
| WarThunderApp.NoTableKeyGivesUnreported | backend/Fastapi_WarThunder/app.py:722-754 | a document with none of the keys (the empty document included) gives the not-valid state with nothing reported |
| WarThunderApp.OptionalIcon | backend/Fastapi_WarThunder/app.py:637 | a falsy icon gives None without parsing; a truthy one must be a member's value, else the request fails |
| WarThunderApp.OptionalIconBg | backend/Fastapi_WarThunder/app.py:638-639 | a falsy background gives None; a truthy one must be "none" |
| WarThunderApp.MapObjectArguments | backend/Fastapi_WarThunder/app.py:635-651 | `color_hex` is taken from "color", `color_rgb` from "color[]", every other field from its own key, and type, icon and background from their parsed members |
| WarThunderApp.BuildMapObject | backend/Fastapi_WarThunder/app.py:635-651 | succeeds exactly when the element is a mapping, its type parses, a truthy icon and icon_bg parse, and the resulting keyword arguments conform to MapObjectModel; a non-mapping fails on `get`; an unknown or missing type, then a truthy unknown icon, then a truthy unknown background fails with that enum's error carrying the raw value; otherwise a failure is MapObjectModel's validation error; on success the type, icon and background are the parsed upstream values (icon present exactly when truthy), the colours come verbatim from "color" and "color[]", and every other field from its own key |
| WarThunderApp.BuiltFields | backend/Fastapi_WarThunder/app.py:635-651 | a record validated from the arguments holds exactly the parsed type, icon and background and the two colour values |
| WarThunderApp.BuildEach | backend/Fastapi_WarThunder/app.py:633-652 | the loop succeeds exactly when every element builds; the list then has the input's length and element k is built from input element k; otherwise the failure is the first failing element's |
| WarThunderApp.BuildMapObjects | backend/Fastapi_WarThunder/app.py:632-652 | a list behaves as the loop; like Python's `for`, an empty object or string gives [], a non-empty one fails on `get`, and any other value is not iterable |
| WarThunderApp.CapitalisedBoatRejected | backend/Fastapi_WarThunder/app.py:501-510 | an element with icon "Boat", like the documented sample, fails with an invalid-icon error |
| WarThunderApp.FalsyIconSkipped | backend/Fastapi_WarThunder/app.py:637-639 | null and "" give no icon, "none" gives the member, "Boat" and 3 fail; background "None" fails |
| WarThunderApp.App.GetIndicators | backend/Fastapi_WarThunder/app.py:131-139 | success exactly when the fetch and the build succeed, with the built record; any failure is a 502 with the unreachable prefix |
| WarThunderApp.App.GetMapInfo | backend/Fastapi_WarThunder/app.py:177-185 | as GetIndicators, for the map description |
| WarThunderApp.App.GetState | backend/Fastapi_WarThunder/app.py:716-756 | as GetIndicators, for the renamed state |
| WarThunderApp.App.GetMapObjects | backend/Fastapi_WarThunder/app.py:627-655 | for a fetched list, success exactly when every element builds, with one record per element in order; for any other fetched value, success exactly when it is `{}` or `""`, and then the list is empty; any failure is a 502 and no partial list |

## Left out

- The network fetch (`AsyncClient`, the 5-second timeout, `raise_for_status`, `response.json()`) is a parameter of each handler. The async machinery is not modelled.
- FastAPI route registration, the OpenAPI response examples, the `/status` endpoint (a constant) and `backend/main.py` (command-line parsing and server start-up) are framework wiring.
- `schemas/gyroscope.py`, `schemas/status.py`, the package `__init__.py` files and the whole frontend are not part of this model. They have no behaviour in this layer.
- Pydantic's lax coercions are not modelled. A numeric string, or `true` for an int field, is rejected here, and so is a float with no fractional part for an int field. Every float field takes JSON integers and reals.
- A missing `Optional` field is treated as None. Whether a given Pydantic version demands it be passed is not modelled.
- Floating point is modelled by exact reals. NaN, infinities and rounding are not represented.
- Failures.Describe: exception messages are short fixed texts, not Python's or Pydantic's wording. Respond's contract about the detail holds for these texts only.
- WarThunderApp.BuildMapObjects: for a non-empty object payload the model says only that the failing key is one of the object's keys, not that it is the first in insertion order, because the JSON object is a map without order.
- Compass.SectorByDivision is an independent reference formula, not a function of the source. It is defined on [0, 360) only.
- ValidationError records the set of rejected field names, not Pydantic's ordered list of error entries with messages.

## Behaviour worth knowing

- `get_direction` ends with a branch that raises "Heading must be between 0 and 360 degrees" (`schemas/compass.py:38-39`). The first branch already takes every heading below 22.5 or from 337.5 on, so 360 and -1 give N and the raising branch cannot be reached for any real heading (Compass.GetDirection, Compass.OutsideCircleIsNorth).
- The map-objects response example contains an element with icon "Boat" (`app.py:506`). The enum's member is spelled "boat" (`schemas/Official/Enum/map_object_icon.py:21`), so a payload containing that element would fail as a whole with a 502 (WarThunderApp.CapitalisedBoatRejected).
- Fetch failures, bad statuses, malformed JSON, invalid enums and validation errors all become the same 502 with the "Upstream service unreachable: " prefix (`app.py:138-139`, `184-185`, `654-655`, `755-756`). No status code tells them apart.
