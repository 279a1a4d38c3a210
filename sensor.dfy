/** The sensor platform: one sensor per (airport code, feed), each holding the
    provider record last matched to its code and the state and attributes
    derived from it; the registry of sensors by code kept in the integration's
    shared data; and the platform setup that fills it. */
module Sensor {
  import opened Json
  import opened Text
  import opened Const
  import Api
  import Airports
  import Registry
  import ConfigFlow

  datatype Feed = Metar | Taf

  function FeedName(feed: Feed): string {
    match feed
    case Metar => FEED_METAR
    case Taf => FEED_TAF
  }

  function FeedUrl(feed: Feed): string {
    match feed
    case Metar => METAR_API_URL
    case Taf => TAF_API_URL
  }

  const ICON_SUNNY := "mdi:weather-sunny"
  const ICON_PARTLY_CLOUDY := "mdi:weather-partly-cloudy"
  const ICON_CLOUDY := "mdi:weather-cloudy"
  const ICON_FOG := "mdi:weather-fog"
  const ICON_FORECAST := "mdi:weather-cloudy-clock"

  /** The icon each sensor kind sets at the end of its construction. */
  function DefaultIcon(feed: Feed): string {
    match feed
    case Metar => ICON_PARTLY_CLOUDY
    case Taf => ICON_FORECAST
  }

  /** The keys of the extra state attributes. */
  datatype Attr =
    | ObservationTime | RawReport | StationId | TemperatureC | DewpointC
    | WindSpeedKts | WindGustKts | WindDirectionDeg | VisibilityMi | AltimeterInHg
    | SeaLevelPressureMb | FlightCategory | CloudCoverage | Weather
    | Latitude | Longitude | ElevationM
    | RawForecast | IssueTime | ValidTimeFrom | ValidTimeTo
  {
    function Name(): string {
      match this
      case ObservationTime => "observation_time"
      case RawReport => "raw_report"
      case StationId => "station_id"
      case TemperatureC => "temperature_c"
      case DewpointC => "dewpoint_c"
      case WindSpeedKts => "wind_speed_kts"
      case WindGustKts => "wind_gust_kts"
      case WindDirectionDeg => "wind_direction_deg"
      case VisibilityMi => "visibility_mi"
      case AltimeterInHg => "altimeter_in_hg"
      case SeaLevelPressureMb => "sea_level_pressure_mb"
      case FlightCategory => "flight_category"
      case CloudCoverage => "cloud_coverage"
      case Weather => "weather"
      case Latitude => "latitude"
      case Longitude => "longitude"
      case ElevationM => "elevation_m"
      case RawForecast => "raw_forecast"
      case IssueTime => "issue_time"
      case ValidTimeFrom => "valid_time_from"
      case ValidTimeTo => "valid_time_to"
    }
  }

  /** How `datetime.fromtimestamp(t, tz=UTC).isoformat()` ends: with the ISO
      text; with a ValueError or TypeError, which the TAF update catches and
      answers with the raw value; or with any other exception (an OverflowError
      or OSError for an epoch out of the platform's range), which escapes. */
  datatype Conversion = Converted(text: string) | Rejected | Escaped

  /** Date-time conversion, which may fail: `dt_util.parse_datetime(...)` followed
      by `isoformat()`, where None stands for a None result or a caught
      ValueError/TypeError; and the epoch conversion above. */
  datatype TimeCodec = TimeCodec(parseDatetime: Value -> Option<string>, fromTimestamp: Value -> Conversion)

  /** `if not self._data`: no record, or an empty one. */
  predicate HasRecord(data: Option<Record>) {
    data.Some? && data.value != map[]
  }

  /** The station test of `_update_from_data_list`: exact equality with the code. */
  predicate Matches(r: Record, code: string) {
    Get(r, "icaoId") == Str(code)
  }

  /** The index of the first record of `list` for `code`, or |list| when none is. */
  function FirstMatch(list: seq<Record>, code: string): (k: nat)
    ensures k <= |list|
    ensures forall j :: 0 <= j < k ==> !Matches(list[j], code)
    ensures k < |list| ==> Matches(list[k], code)
  {
    if list == [] then 0
    else if Matches(list[0], code) then 0
    else 1 + FirstMatch(list[1..], code)
  }

  /** The record a sensor for `code` keeps from a batch: the first one whose
      `icaoId` is the code, else None. */
  function FindStation(list: seq<Record>, code: string): (found: Option<Record>)
    ensures found.None? <==> forall j :: 0 <= j < |list| ==> !Matches(list[j], code)
    ensures found.Some? ==> var k := FirstMatch(list, code);
      k < |list| && found.value == list[k] && Matches(found.value, code)
  {
    var k := FirstMatch(list, code);
    if k < |list| then Some(list[k]) else None
  }

  /** A record kept for a code is never empty, so a sensor that has a record
      also displays it. */
  lemma FoundRecordIsDisplayed(list: seq<Record>, code: string)
    ensures FindStation(list, code).Some? <==> HasRecord(FindStation(list, code))
  {
    var found := FindStation(list, code);
    if found.Some? {
      assert "icaoId" in found.value;
    }
  }

  /** A requested station the provider reply does not report missing gets a
      record from the batch, and one it reports missing gets none; the one
      exception is a code spelled "UNKNOWN", the default a record without an
      `icaoId` is counted under. */
  lemma {:induction false} MissingMeansNoRecord(ids: string, records: seq<Record>, code: string)
    requires code in Api.RequestedStations(ids) && code != "UNKNOWN"
    ensures code in Api.MissingStations(ids, records) <==> FindStation(records, code).None?
  {
    if code !in Api.MissingStations(ids, records) {
      var r :| r in records && Api.StationId(r) == Str(code);
      assert "icaoId" in r;
      var j :| 0 <= j < |records| && records[j] == r;
      assert Matches(records[j], code);
    } else {
      forall j | 0 <= j < |records| ensures !Matches(records[j], code) {
        assert Api.StationId(records[j]) in Api.ReturnedStations(records);
      }
    }
  }

  /** The METAR icon for a flight category: VFR sunny, IFR cloudy, LIFR fog,
      anything else (MVFR, absent, unknown) partly cloudy. */
  function MetarIcon(category: Value): (icon: string)
    ensures icon == ICON_SUNNY <==> category == Str("VFR")
    ensures icon == ICON_CLOUDY <==> category == Str("IFR")
    ensures icon == ICON_FOG <==> category == Str("LIFR")
    ensures icon == ICON_PARTLY_CLOUDY <==> category != Str("VFR") && category != Str("IFR") && category != Str("LIFR")
  {
    if category == Str("VFR") then ICON_SUNNY
    else if category == Str("MVFR") then ICON_PARTLY_CLOUDY
    else if category == Str("IFR") then ICON_CLOUDY
    else if category == Str("LIFR") then ICON_FOG
    else ICON_PARTLY_CLOUDY
  }

  /** A converted time, or the raw value when the conversion failed. */
  function ParsedOr(parsed: Option<string>, raw: Value): Value {
    if parsed.Some? then Str(parsed.value) else raw
  }

  /** A cloud value the layer formatting gets through: a list of objects. Any
      other truthy value raises (an item without `.get`, or no iteration). */
  predicate IsLayerList(clouds: Value) {
    clouds.List? && forall i :: 0 <= i < |clouds.items| ==> clouds.items[i].Dict?
  }

  /** `f'{cover} at {base} ft AGL'` with the defaults "Unknown" and "N/A". */
  function LayerText(layer: Record): string {
    Show(GetOr(layer, "cover", Str("Unknown"))) + " at " + Show(GetOr(layer, "base", Str("N/A"))) + " ft AGL"
  }

  /** Each cloud line names the cover and ends in " ft AGL"; `dict.get` falls
      back to "Unknown" and "N/A" only for a missing key, so a cover or base
      that is present but None prints as "None". */
  lemma LayerTextParts(layer: Record)
    ensures var t := LayerText(layer);
      && |t| >= 7 && t[|t| - 7..] == " ft AGL"
      && ("cover" !in layer ==> "Unknown at " <= t)
      && ("cover" in layer && layer["cover"] == Null ==> "None at " <= t)
      && ("base" !in layer ==> |t| >= 14 && t[|t| - 14..] == " at N/A ft AGL")
  {
  }

  /** The `cloud_coverage` list, one string per layer in order; None when the
      comprehension raises. */
  function CloudLines(clouds: Value): (lines: Option<seq<Value>>)
    ensures lines.Some? <==> IsLayerList(clouds)
    ensures lines.Some? ==>
              && |lines.value| == |clouds.items|
              && forall i :: 0 <= i < |clouds.items| ==> lines.value[i] == Str(LayerText(clouds.items[i].fields))
  {
    if IsLayerList(clouds) then
      Some(seq(|clouds.items|, i requires 0 <= i < |clouds.items| => Str(LayerText(clouds.items[i].fields))))
    else None
  }


  /** The extra state attributes. Their keys come from the fixed set `Attr`, so
      the dictionary is held as one slot per key: None is a key it does not hold. */
  datatype Attributes = Attributes(
    observationTime: Option<Value>, rawReport: Option<Value>, stationId: Option<Value>,
    temperatureC: Option<Value>, dewpointC: Option<Value>, windSpeedKts: Option<Value>,
    windGustKts: Option<Value>, windDirectionDeg: Option<Value>, visibilityMi: Option<Value>,
    altimeterInHg: Option<Value>, seaLevelPressureMb: Option<Value>, flightCategory: Option<Value>,
    cloudCoverage: Option<Value>, weather: Option<Value>, latitude: Option<Value>,
    longitude: Option<Value>, elevationM: Option<Value>, rawForecast: Option<Value>,
    issueTime: Option<Value>, validTimeFrom: Option<Value>, validTimeTo: Option<Value>)
  {
    /** The value held under a key. */
    function Slot(k: Attr): Option<Value> {
      match k
      case ObservationTime => observationTime
      case RawReport => rawReport
      case StationId => stationId
      case TemperatureC => temperatureC
      case DewpointC => dewpointC
      case WindSpeedKts => windSpeedKts
      case WindGustKts => windGustKts
      case WindDirectionDeg => windDirectionDeg
      case VisibilityMi => visibilityMi
      case AltimeterInHg => altimeterInHg
      case SeaLevelPressureMb => seaLevelPressureMb
      case FlightCategory => flightCategory
      case CloudCoverage => cloudCoverage
      case Weather => weather
      case Latitude => latitude
      case Longitude => longitude
      case ElevationM => elevationM
      case RawForecast => rawForecast
      case IssueTime => issueTime
      case ValidTimeFrom => validTimeFrom
      case ValidTimeTo => validTimeTo
    }
  }

  /** `{}`. */
  const EMPTY := Attributes(None, None, None, None, None, None, None, None, None, None, None,
    None, None, None, None, None, None, None, None, None, None)

  /** The METAR cloud value the layer formatting raises on: a truthy value that
      is not a list of objects. */
  predicate CloudsRaise(r: Record) {
    var clouds := GetOr(r, "clouds", List([]));
    Truthy(clouds) && !IsLayerList(clouds)
  }

  /** The position entries shared by both feeds: latitude and longitude when
      both are non-None, elevation when it is non-None. */
  function PositionEntry(r: Record, k: Attr): Option<Value>
    requires k == Latitude || k == Longitude || k == ElevationM
  {
    match k
    case ElevationM => if !Get(r, "elev").Null? then Some(Get(r, "elev")) else None
    case _ =>
      if !Get(r, "lat").Null? && !Get(r, "lon").Null? then
        Some(if k == Latitude then Get(r, "lat") else Get(r, "lon"))
      else None
  }

  /** What a METAR record puts under each key, None for a key it leaves out.
      The keys after the cloud coverage are never reached when the cloud
      formatting raises. */
  function MetarEntry(r: Record, codec: TimeCodec, k: Attr): Option<Value> {
    match k
    case ObservationTime =>
      var t := Get(r, "reportTime");
      if Truthy(t) then Some(ParsedOr(codec.parseDatetime(t), t)) else None
    case RawReport => Some(Get(r, "rawOb"))
    case StationId => Some(Get(r, "icaoId"))
    case TemperatureC => Some(Get(r, "temp"))
    case DewpointC => Some(Get(r, "dewp"))
    case WindSpeedKts => Some(Get(r, "wspd"))
    case WindGustKts => Some(Get(r, "wgst"))
    case WindDirectionDeg => Some(Get(r, "wdir"))
    case VisibilityMi => Some(Get(r, "visib"))
    case AltimeterInHg => Some(Get(r, "altim"))
    case SeaLevelPressureMb => Some(Null)
    case FlightCategory => Some(Get(r, "fltCat"))
    case CloudCoverage =>
      var clouds := GetOr(r, "clouds", List([]));
      if Truthy(clouds) && IsLayerList(clouds) then Some(List(CloudLines(clouds).value)) else None
    case Weather =>
      if !CloudsRaise(r) && Truthy(Get(r, "wxString")) then Some(Get(r, "wxString")) else None
    case Latitude => if !CloudsRaise(r) then PositionEntry(r, k) else None
    case Longitude => if !CloudsRaise(r) then PositionEntry(r, k) else None
    case ElevationM => if !CloudsRaise(r) then PositionEntry(r, k) else None
    case RawForecast => None
    case IssueTime => None
    case ValidTimeFrom => None
    case ValidTimeTo => None
  }

  /** The observation time and the basic attributes a METAR record puts in a
      fresh dictionary. */
  function MetarHead(r: Record, codec: TimeCodec): Attributes {
    var obs := Get(r, "reportTime");
    EMPTY.(observationTime := if Truthy(obs) then Some(ParsedOr(codec.parseDatetime(obs), obs)) else None,
      rawReport := Some(Get(r, "rawOb")), stationId := Some(Get(r, "icaoId")),
      temperatureC := Some(Get(r, "temp")), dewpointC := Some(Get(r, "dewp")),
      windSpeedKts := Some(Get(r, "wspd")), windGustKts := Some(Get(r, "wgst")),
      windDirectionDeg := Some(Get(r, "wdir")), visibilityMi := Some(Get(r, "visib")),
      altimeterInHg := Some(Get(r, "altim")), seaLevelPressureMb := Some(Null),
      flightCategory := Some(Get(r, "fltCat")))
  }

  /** The METAR attribute dictionary of a record: the head, then, unless the
      cloud formatting raises, the cloud lines when the clouds are truthy, the
      weather string when truthy, and the position entries. */
  function MetarAttributes(r: Record, codec: TimeCodec): Attributes {
    var clouds, wx := GetOr(r, "clouds", List([])), Get(r, "wxString");
    if CloudsRaise(r) then MetarHead(r, codec)
    else MetarHead(r, codec).(
      cloudCoverage := if Truthy(clouds) then Some(List(CloudLines(clouds).value)) else None,
      weather := if Truthy(wx) then Some(wx) else None,
      latitude := PositionEntry(r, Latitude), longitude := PositionEntry(r, Longitude),
      elevationM := PositionEntry(r, ElevationM))
  }

  /** The METAR dictionary holds, under each key, what the table gives for it. */
  lemma MetarAttributesTable(r: Record, codec: TimeCodec)
    ensures forall k :: MetarAttributes(r, codec).Slot(k) == MetarEntry(r, codec, k)
  {
    forall k ensures MetarAttributes(r, codec).Slot(k) == MetarEntry(r, codec, k) {
      MetarKey(r, codec, k);
    }
  }

  /** The table entry of one key. */
  lemma MetarKey(r: Record, codec: TimeCodec, k: Attr)
    ensures MetarAttributes(r, codec).Slot(k) == MetarEntry(r, codec, k)
  {
    match k
    case CloudCoverage =>
    case Weather =>
    case Latitude =>
    case Longitude =>
    case ElevationM =>
    case _ => assert MetarAttributes(r, codec).Slot(k) == MetarHead(r, codec).Slot(k);
  }

  /** The value stored for a truthy valid time: its ISO text, or the raw value
      when the conversion was rejected. */
  function ConvertedOr(c: Conversion, raw: Value): Value {
    if c.Converted? then Str(c.text) else raw
  }

  /** A truthy time value whose epoch conversion escapes the `try`. */
  predicate Escapes(codec: TimeCodec, t: Value) {
    Truthy(t) && codec.fromTimestamp(t).Escaped?
  }

  /** `TafSensor._update_state` raises on a present record exactly when the
      conversion of `validTimeFrom`, or, failing that, of `validTimeTo`, escapes. */
  predicate TafRaises(r: Record, codec: TimeCodec) {
    Escapes(codec, Get(r, "validTimeFrom")) || Escapes(codec, Get(r, "validTimeTo"))
  }

  /** What a TAF record puts under each key: the raw forecast and the station
      always, the issue time when truthy, the two valid times when truthy (each
      converted from epoch seconds, or raw when the conversion is rejected) up
      to the first conversion that escapes, and the position entries when no
      conversion escapes. */
  function TafEntry(r: Record, codec: TimeCodec, k: Attr): Option<Value> {
    match k
    case RawForecast => Some(Get(r, "rawTAF"))
    case StationId => Some(Get(r, "icaoId"))
    case IssueTime => if Truthy(Get(r, "issueTime")) then Some(Get(r, "issueTime")) else None
    case ValidTimeFrom =>
      var t := Get(r, "validTimeFrom");
      if Truthy(t) && !Escapes(codec, t) then Some(ConvertedOr(codec.fromTimestamp(t), t)) else None
    case ValidTimeTo =>
      var t := Get(r, "validTimeTo");
      if Truthy(t) && !TafRaises(r, codec) then Some(ConvertedOr(codec.fromTimestamp(t), t)) else None
    case Latitude => if TafRaises(r, codec) then None else PositionEntry(r, k)
    case Longitude => if TafRaises(r, codec) then None else PositionEntry(r, k)
    case ElevationM => if TafRaises(r, codec) then None else PositionEntry(r, k)
    case _ => None
  }

  /** The TAF attribute dictionary of a record, as far as the update gets: the
      table above, key by key. */
  function TafAttributes(r: Record, codec: TimeCodec): Attributes {
    var issue, from, to := Get(r, "issueTime"), Get(r, "validTimeFrom"), Get(r, "validTimeTo");
    var head := EMPTY.(rawForecast := Some(Get(r, "rawTAF")), stationId := Some(Get(r, "icaoId")),
      issueTime := if Truthy(issue) then Some(issue) else None);
    if Escapes(codec, from) then head
    else
      var withFrom := head.(validTimeFrom := if Truthy(from) then Some(ConvertedOr(codec.fromTimestamp(from), from)) else None);
      if Escapes(codec, to) then withFrom
      else
        withFrom.(validTimeTo := if Truthy(to) then Some(ConvertedOr(codec.fromTimestamp(to), to)) else None,
          latitude := PositionEntry(r, Latitude), longitude := PositionEntry(r, Longitude),
          elevationM := PositionEntry(r, ElevationM))
  }

  /** The TAF dictionary holds, under each key, what the table gives for it. */
  lemma TafAttributesTable(r: Record, codec: TimeCodec)
    ensures forall k :: TafAttributes(r, codec).Slot(k) == TafEntry(r, codec, k)
  {
    var from, to := Get(r, "validTimeFrom"), Get(r, "validTimeTo");
    if Escapes(codec, from) {
      forall k ensures TafAttributes(r, codec).Slot(k) == TafEntry(r, codec, k) {
      }
    } else if Escapes(codec, to) {
      forall k ensures TafAttributes(r, codec).Slot(k) == TafEntry(r, codec, k) {
      }
    } else {
      forall k ensures TafAttributes(r, codec).Slot(k) == TafEntry(r, codec, k) {
      }
    }
  }

  /** The latitude/longitude and elevation blocks both sensors end with: each
      key is inserted when its source value is non-None. */
  method PutPosition(r: Record, before: Attributes) returns (attrs: Attributes)
    requires before.latitude.None? && before.longitude.None? && before.elevationM.None?
    ensures attrs == before.(latitude := PositionEntry(r, Latitude), longitude := PositionEntry(r, Longitude),
      elevationM := PositionEntry(r, ElevationM))
  {
    attrs := before;
    if !Get(r, "lat").Null? && !Get(r, "lon").Null? {
      attrs := attrs.(latitude := Some(Get(r, "lat")));
      attrs := attrs.(longitude := Some(Get(r, "lon")));
    }
    if !Get(r, "elev").Null? {
      attrs := attrs.(elevationM := Some(Get(r, "elev")));
    }
  }

  /** The observation time and the basic attributes of `MetarSensor._update_state`,
      inserted one by one into a fresh dictionary: every key of the METAR table
      except the five the later blocks add. */
  method PutMetarHead(r: Record, codec: TimeCodec) returns (attrs: Attributes)
    ensures attrs == MetarHead(r, codec)
  {
    var obs := Get(r, "reportTime");
    if Truthy(obs) {
      var parsed := codec.parseDatetime(obs);
      attrs := EMPTY.(observationTime := Some(if parsed.Some? then Str(parsed.value) else obs));
    } else {
      attrs := EMPTY;
    }
    attrs := attrs.(
      rawReport := Some(Get(r, "rawOb")),
      stationId := Some(Get(r, "icaoId")),
      temperatureC := Some(Get(r, "temp")),
      dewpointC := Some(Get(r, "dewp")),
      windSpeedKts := Some(Get(r, "wspd")),
      windGustKts := Some(Get(r, "wgst")),
      windDirectionDeg := Some(Get(r, "wdir")),
      visibilityMi := Some(Get(r, "visib")),
      altimeterInHg := Some(Get(r, "altim")),
      seaLevelPressureMb := Some(Null),
      flightCategory := Some(Get(r, "fltCat")));
  }

  /** The attribute part of `MetarSensor._update_state` for a present record:
      the dictionary ends as the METAR table of the record, and the update
      raises exactly when the clouds are truthy but not a list of objects. */
  method PutMetarAttributes(r: Record, codec: TimeCodec) returns (attrs: Attributes, raised: bool)
    ensures raised <==> CloudsRaise(r)
    ensures attrs == MetarAttributes(r, codec)
  {
    raised := false;
    attrs := PutMetarHead(r, codec);
    var clouds := GetOr(r, "clouds", List([]));
    if Truthy(clouds) {
      var lines := CloudLines(clouds);
      if lines.None? {
        return attrs, true;
      }
      attrs := attrs.(cloudCoverage := Some(List(lines.value)));
    }
    var wx := Get(r, "wxString");
    if Truthy(wx) {
      attrs := attrs.(weather := Some(wx));
    }
    attrs := PutPosition(r, attrs);
  }

  /** The attribute part of `TafSensor._update_state` for a present record: the
      dictionary ends as the TAF table of the record, and the update raises
      exactly when a valid-time conversion escapes its `try`. */
  method PutTafAttributes(r: Record, codec: TimeCodec) returns (attrs: Attributes, raised: bool)
    ensures raised <==> TafRaises(r, codec)
    ensures attrs == TafAttributes(r, codec)
  {
    raised := false;
    attrs := EMPTY.(rawForecast := Some(Get(r, "rawTAF")), stationId := Some(Get(r, "icaoId")));
    var issue := Get(r, "issueTime");
    if Truthy(issue) {
      attrs := attrs.(issueTime := Some(issue));
    }
    var from := Get(r, "validTimeFrom");
    if Truthy(from) {
      var converted := codec.fromTimestamp(from);
      if converted.Escaped? {
        return attrs, true;
      }
      attrs := attrs.(validTimeFrom := Some(if converted.Converted? then Str(converted.text) else from));
    }
    var to := Get(r, "validTimeTo");
    if Truthy(to) {
      var converted := codec.fromTimestamp(to);
      if converted.Escaped? {
        return attrs, true;
      }
      attrs := attrs.(validTimeTo := Some(if converted.Converted? then Str(converted.text) else to));
    }
    attrs := PutPosition(r, attrs);
  }

  /** The native value `_update_state` sets: None without a record, else the
      raw report or the raw forecast. */
  function NativeValue(feed: Feed, data: Option<Record>): Value {
    if !HasRecord(data) then Null
    else if feed == Metar then Get(data.value, "rawOb")
    else Get(data.value, "rawTAF")
  }

  /** The attribute dictionary `_update_state` leaves: `{}` without a record,
      else the table of the sensor's feed. */
  function AttributesFor(feed: Feed, data: Option<Record>, codec: TimeCodec): (a: Attributes)
  {
    if !HasRecord(data) then EMPTY
    else if feed == Metar then MetarAttributes(data.value, codec)
    else TafAttributes(data.value, codec)
  }

  /** What the attribute dictionary holds under a key: nothing without a
      record, else the entry of the table of the sensor's feed. */
  function Entry(feed: Feed, data: Option<Record>, codec: TimeCodec, k: Attr): Option<Value> {
    if !HasRecord(data) then None
    else if feed == Metar then MetarEntry(data.value, codec, k)
    else TafEntry(data.value, codec, k)
  }

  /** The dictionary `_update_state` builds holds, under every key, the entry
      of its feed's table; without a record it holds no key. */
  lemma AttributesForTable(feed: Feed, data: Option<Record>, codec: TimeCodec)
    ensures forall k :: AttributesFor(feed, data, codec).Slot(k) == Entry(feed, data, codec, k)
    ensures !HasRecord(data) ==> forall k :: AttributesFor(feed, data, codec).Slot(k).None?
  {
    if HasRecord(data) {
      if feed == Metar {
        MetarAttributesTable(data.value, codec);
      } else {
        TafAttributesTable(data.value, codec);
      }
    }
  }

  /** Whether `_update_state` raises: a METAR record with malformed clouds, or a
      TAF record whose valid-time conversion escapes. */
  predicate Raises(feed: Feed, data: Option<Record>, codec: TimeCodec) {
    HasRecord(data) && (if feed == Metar then CloudsRaise(data.value) else TafRaises(data.value, codec))
  }

  /** The icon after `_update_state`: a METAR sensor takes it from the flight
      category, or resets it without a record; a TAF sensor keeps its own. */
  function IconAfter(feed: Feed, data: Option<Record>, previous: string): string {
    if feed == Taf then previous
    else if HasRecord(data) then MetarIcon(Get(data.value, "fltCat"))
    else ICON_PARTLY_CLOUDY
  }

  /** The METAR dictionary always holds the eleven basic keys, holds
      `observation_time` exactly when the report time is truthy, and holds
      no TAF key. */
  lemma MetarFixedKeys(r: Record, codec: TimeCodec)
    ensures var a := MetarAttributes(r, codec);
      && a.rawReport.Some? && a.stationId.Some? && a.temperatureC.Some? && a.dewpointC.Some?
      && a.windSpeedKts.Some? && a.windGustKts.Some? && a.windDirectionDeg.Some?
      && a.visibilityMi.Some? && a.altimeterInHg.Some? && a.flightCategory.Some?
      && a.seaLevelPressureMb == Some(Null)
      && (a.observationTime.Some? <==> Truthy(Get(r, "reportTime")))
      && a.rawForecast.None? && a.issueTime.None? && a.validTimeFrom.None? && a.validTimeTo.None?
  {
  }

  /** The conditional METAR keys when the cloud formatting gets through:
      `cloud_coverage` iff the cloud list is non-empty, with one line per layer
      in order; `weather` iff the weather string is truthy; latitude and
      longitude together iff both are non-None; elevation iff it is non-None. */
  lemma MetarConditionalKeys(r: Record, codec: TimeCodec)
    requires !CloudsRaise(r)
    ensures var a := MetarAttributes(r, codec);
      var clouds := GetOr(r, "clouds", List([]));
      && (a.cloudCoverage.Some? <==> Truthy(clouds))
      && (a.cloudCoverage.Some? ==>
            && a.cloudCoverage.value.List? && |a.cloudCoverage.value.items| == |clouds.items|
            && forall i :: 0 <= i < |clouds.items| ==>
                 a.cloudCoverage.value.items[i] == Str(LayerText(clouds.items[i].fields)))
      && (a.weather.Some? <==> Truthy(Get(r, "wxString")))
      && (a.latitude.Some? <==> a.longitude.Some?)
      && (a.latitude.Some? <==> !Get(r, "lat").Null? && !Get(r, "lon").Null?)
      && (a.elevationM.Some? <==> !Get(r, "elev").Null?)
  {
  }

  /** When the cloud formatting raises, the dictionary keeps what was inserted
      before it: none of the keys after the clouds. */
  lemma MetarRaisedKeys(r: Record, codec: TimeCodec)
    requires CloudsRaise(r)
    ensures var a := MetarAttributes(r, codec);
      a.cloudCoverage.None? && a.weather.None? && a.latitude.None? && a.longitude.None? && a.elevationM.None?
  {
  }

  /** When no conversion escapes, the TAF dictionary always holds `raw_forecast`
      and `station_id`, holds each time key exactly when its source value is
      truthy (so a zero epoch is left out), keeps a valid time whose conversion
      is rejected as the raw value, follows the METAR rules for the position
      keys, and holds no METAR-only key. */
  lemma TafKeys(r: Record, codec: TimeCodec)
    requires !TafRaises(r, codec)
    ensures var a := TafAttributes(r, codec);
      && a.rawForecast == Some(Get(r, "rawTAF")) && a.stationId == Some(Get(r, "icaoId"))
      && (a.issueTime.Some? <==> Truthy(Get(r, "issueTime")))
      && (a.validTimeFrom.Some? <==> Truthy(Get(r, "validTimeFrom")))
      && (a.validTimeTo.Some? <==> Truthy(Get(r, "validTimeTo")))
      && (Truthy(Get(r, "validTimeFrom")) && codec.fromTimestamp(Get(r, "validTimeFrom")).Rejected? ==>
            a.validTimeFrom == Some(Get(r, "validTimeFrom")))
      && (Truthy(Get(r, "validTimeTo")) && codec.fromTimestamp(Get(r, "validTimeTo")).Rejected? ==>
            a.validTimeTo == Some(Get(r, "validTimeTo")))
      && (a.latitude.Some? <==> a.longitude.Some?)
      && (a.latitude.Some? <==> !Get(r, "lat").Null? && !Get(r, "lon").Null?)
      && (a.elevationM.Some? <==> !Get(r, "elev").Null?)
      && NoMetarOnlyKey(a)
  {
  }

  /** The dictionary holds none of the thirteen keys only the METAR update sets. */
  predicate NoMetarOnlyKey(a: Attributes) {
    && a.observationTime.None? && a.rawReport.None? && a.temperatureC.None? && a.dewpointC.None?
    && a.windSpeedKts.None? && a.windGustKts.None? && a.windDirectionDeg.None? && a.visibilityMi.None?
    && a.altimeterInHg.None? && a.seaLevelPressureMb.None? && a.flightCategory.None?
    && a.cloudCoverage.None? && a.weather.None?
  }

  /** A TAF update that raises still leaves `raw_forecast`, `station_id`, the
      issue time and, when only the `validTimeTo` conversion escaped, the
      `valid_time_from` entry in place, but no key after the escaping
      conversion: no position key, no `valid_time_to`, and no `valid_time_from`
      either when its own conversion is the one that escaped. No METAR-only key
      is set. */
  lemma TafRaisedKeys(r: Record, codec: TimeCodec)
    requires TafRaises(r, codec)
    ensures var a := TafAttributes(r, codec);
      && a.rawForecast == Some(Get(r, "rawTAF")) && a.stationId == Some(Get(r, "icaoId"))
      && (a.issueTime.Some? <==> Truthy(Get(r, "issueTime")))
      && (Escapes(codec, Get(r, "validTimeFrom")) ==> a.validTimeFrom.None?)
      && (!Escapes(codec, Get(r, "validTimeFrom")) ==> (a.validTimeFrom.Some? <==> Truthy(Get(r, "validTimeFrom"))))
      && (Truthy(Get(r, "validTimeFrom")) && codec.fromTimestamp(Get(r, "validTimeFrom")).Rejected? ==>
            a.validTimeFrom == Some(Get(r, "validTimeFrom")))
      && a.validTimeTo.None? && a.latitude.None? && a.longitude.None? && a.elevationM.None?
      && NoMetarOnlyKey(a)
  {
  }

  /** `if feed_type and feed_type != <own feed>: return`. */
  predicate Selected(feed: Feed, feedType: Option<string>) {
    !(feedType.Some? && feedType.value != "" && feedType.value != FeedName(feed))
  }

  /** A METAR or TAF sensor for one airport code. */
  class Sensor {
    const feed: Feed
    const icaoCode: string
    const name: string
    const uniqueId: string
    const api: Api.Client
    const codec: TimeCodec
    var data: Option<Record>
    var nativeValue: Value
    var icon: string
    var attrs: Attributes

    /** The record kept belongs to the sensor's code, the displayed value and
        attributes are the ones derived from it (never leftovers of an earlier
        record), and a TAF sensor's icon never changes. */
    ghost predicate Valid()
      reads this
    {
      && (data.Some? ==> Matches(data.value, icaoCode))
      && nativeValue == NativeValue(feed, data)
      && (forall k :: attrs.Slot(k) == Entry(feed, data, codec, k))
      && (feed == Taf ==> icon == ICON_FORECAST)
    }

    /** `available`. */
    predicate Available()
      reads this
    {
      data.Some?
    }

    /** The field set-up of `__init__` before the initial batch is applied. */
    constructor (feed: Feed, code: string, api: Api.Client, codec: TimeCodec)
      ensures this.feed == feed && icaoCode == Upper(code) && this.api == api && this.codec == codec
      ensures name == code + " " + FeedName(feed) && uniqueId == Upper(code) + "_" + FeedName(feed)
      ensures data == None && icon == DefaultIcon(feed)
      ensures Valid()
    {
      this.feed := feed;
      icaoCode := Upper(code);
      name := code + " " + FeedName(feed);
      uniqueId := Upper(code) + "_" + FeedName(feed);
      this.api := api;
      this.codec := codec;
      data := None;
      nativeValue := Null;
      icon := DefaultIcon(feed);
      attrs := EMPTY;
    }

    /** `_update_state` of the sensor's feed. */
    method UpdateState() returns (raised: bool)
      modifies this
      ensures data == old(data)
      ensures nativeValue == NativeValue(feed, data)
      ensures attrs == AttributesFor(feed, data, codec)
      ensures icon == IconAfter(feed, data, old(icon))
      ensures raised == Raises(feed, data, codec)
    {
      raised := false;
      if !HasRecord(data) {
        nativeValue := Null;
        attrs := EMPTY;
        if feed == Metar {
          icon := ICON_PARTLY_CLOUDY;
        }
        return;
      }
      var r := data.value;
      if feed == Metar {
        nativeValue := Get(r, "rawOb");
        icon := MetarIcon(Get(r, "fltCat"));
        attrs, raised := PutMetarAttributes(r, codec);
      } else {
        nativeValue := Get(r, "rawTAF");
        attrs, raised := PutTafAttributes(r, codec);
      }
    }

    /** `_update_from_data_list`: keeps the first record whose `icaoId` is the
        sensor's code, or None, and re-derives the state from it. */
    method UpdateFromDataList(list: seq<Record>) returns (raised: bool)
      modifies this
      ensures data == FindStation(list, icaoCode)
      ensures Available() <==> exists j :: 0 <= j < |list| && Matches(list[j], icaoCode)
      ensures nativeValue == NativeValue(feed, data)
      ensures attrs == AttributesFor(feed, data, codec)
      ensures icon == IconAfter(feed, data, old(icon))
      ensures raised == Raises(feed, data, codec)
    {
      if list != [] {
        var i := 0;
        while i < |list|
          invariant 0 <= i <= |list|
          invariant forall j :: 0 <= j < i ==> !Matches(list[j], icaoCode)
          invariant unchanged(this)
        {
          if Get(list[i], "icaoId") == Str(icaoCode) {
            data := Some(list[i]);
            raised := UpdateState();
            return;
          }
          i := i + 1;
        }
      }
      data := None;
      raised := UpdateState();
    }

    /** The data part of `__init__`: the initial batch is applied, then the icon
        is set to the kind's default, so a METAR sensor starts partly cloudy
        whatever its first record says. A raise aborts the construction. */
    method Initialize(initial: seq<Record>) returns (raised: bool)
      requires Valid()
      modifies this
      ensures data == FindStation(initial, icaoCode)
      ensures raised == Raises(feed, data, codec)
      ensures !raised ==> icon == DefaultIcon(feed) && Valid()
    {
      raised := UpdateFromDataList(initial);
      AttributesForTable(feed, data, codec);
      if !raised {
        icon := DefaultIcon(feed);
      }
    }

    /** `async_update_weather`: nothing happens when another feed is named;
        otherwise the sensor fetches its own code alone and applies the reply.
        The fetch is returned as the list of requests sent. */
    method UpdateWeather(feedType: Option<string>) returns (requests: seq<Api.Request>, raised: bool)
      requires Valid()
      modifies if Selected(feed, feedType) then {this} else {}
      ensures Valid()
      ensures !Selected(feed, feedType) ==> requests == [] && !raised
      ensures Selected(feed, feedType) ==>
        && requests == [Api.BuildRequest(FeedUrl(feed), icaoCode)]
        && data == FindStation(Api.FetchData(api, FeedUrl(feed), icaoCode), icaoCode)
        && raised == Raises(feed, data, codec)
        && icon == IconAfter(feed, data, old(icon))
    {
      if !Selected(feed, feedType) {
        return [], false;
      }
      var list := if feed == Metar then Api.GetMetarData(api, icaoCode) else Api.GetTafData(api, icaoCode);
      requests := [Api.BuildRequest(FeedUrl(feed), icaoCode)];
      raised := UpdateFromDataList(list);
      AttributesForTable(feed, data, codec);
    }
  }

  /** After a batch, a sensor is available exactly when the batch has a record
      for its code, and its state depends on nothing but that record: a batch
      without one leaves no value and no attribute of an earlier record. */
  lemma NoLeftoverState(feed: Feed, list: seq<Record>, code: string, codec: TimeCodec)
    requires forall j :: 0 <= j < |list| ==> !Matches(list[j], code)
    ensures FindStation(list, code).None?
    ensures NativeValue(feed, FindStation(list, code)) == Null
    ensures forall k :: AttributesFor(feed, FindStation(list, code), codec).Slot(k).None?
  {
  }

  /** A kept record shows its station: `station_id` is the sensor's code. */
  lemma StationAttributeIsCode(feed: Feed, list: seq<Record>, code: string, codec: TimeCodec)
    requires FindStation(list, code).Some?
    ensures AttributesFor(feed, FindStation(list, code), codec).stationId == Some(Str(code))
  {
    FoundRecordIsDisplayed(list, code);
  }

  /** `_format_airport_name_sync`: the device label, built from the airport cache
      only. It is the bare code unless the cache is non-empty and holds the
      code; the label has no airport name, only city and country. */
  function FormatAirportNameSync(cache: Option<Airports.Table>, icao: string): (shown: string)
    ensures icao <= shown
    ensures cache.None? || cache.value == map[] || Upper(icao) !in cache.value ==> shown == icao
  {
    if cache.Some? && cache.value != map[] && Upper(icao) in cache.value then
      var d := cache.value[Upper(icao)];
      var city := Airports.Field(d, "city", "");
      var country := Airports.Field(d, "country", "");
      var parts := (if city != "" then [city] else []) + (if country != "" then [country] else []);
      Airports.JoinLabel(Airports.LabelHead(icao, d), parts)
    else icao
  }

  /** The device label is the configuration-flow label of the same entry with
      its name blanked out. */
  lemma {:induction false} DeviceLabelOmitsName(cache: Airports.Table, icao: string)
    requires cache != map[] && Upper(icao) in cache
    ensures FormatAirportNameSync(Some(cache), icao)
      == Airports.FormatAirportLabel(cache, icao, Some(cache[Upper(icao)]["name" := ""]))
  {
    var d := cache[Upper(icao)];
    var blank := d["name" := ""];
    assert Airports.LocationParts(blank)
      == (if Airports.Field(d, "city", "") != "" then [Airports.Field(d, "city", "")] else [])
         + (if Airports.Field(d, "country", "") != "" then [Airports.Field(d, "country", "")] else []);
    assert Airports.LabelHead(icao, blank) == Airports.LabelHead(icao, d);
    assert blank != map[] by { assert "name" in blank; }
  }

  /** `hass.data[DOMAIN]`: whether it exists, the entry data stored under each
      entry id, the `apis` and `entities` dictionaries once the sensor platform
      has created them, and whether the update service is registered. */
  class DomainData {
    var present: bool
    var entries: map<string, EntryData>
    var apis: Option<map<string, Api.Client>>
    var entities: Option<Registry.Registry<Sensor>>
    var serviceRegistered: bool

    ghost predicate Valid()
      reads this
    {
      && (entities.Some? ==> Registry.Valid(entities.value))
      && (!present ==> entries == map[] && apis.None? && entities.None?)
    }

    /** Before the integration's first setup. */
    constructor ()
      ensures !present && entries == map[] && apis.None? && entities.None? && !serviceRegistered
      ensures Valid()
    {
      present := false;
      entries := map[];
      apis := None;
      entities := None;
      serviceRegistered := false;
    }

    /** `not hass.data[DOMAIN]`: no key at all. */
    predicate IsEmpty()
      reads this
    {
      entries == map[] && apis.None? && entities.None?
    }
  }

  /** A stored registry, or a fresh one. */
  function OrEmpty<T>(reg: Option<Registry.Registry<T>>): (r: Registry.Registry<T>)
    requires reg.Some? ==> Registry.Valid(reg.value)
    ensures Registry.Valid(r)
    ensures reg.Some? ==> r == reg.value
    ensures reg.None? ==> r.order == [] && r.lists == map[]
  {
    if reg.Some? then reg.value else Registry.EmptyOf()
  }

  /** One sensor the platform setup creates: its registration key and feed. */
  datatype Planned = Planned(code: string, feed: Feed)

  /** `[code.strip() for code in icao_codes.split(",")]`: one code per
      comma-separated part, none holding a comma or edge whitespace; a string
      without a comma is one code. */
  function Codes(icaoCodes: string): (codes: seq<string>)
    ensures |codes| == |Split(icaoCodes, ',')|
    ensures forall i :: 0 <= i < |codes| ==> codes[i] == Strip(Split(icaoCodes, ',')[i])
    ensures forall i :: 0 <= i < |codes| ==> ',' !in codes[i]
    ensures forall i :: 0 <= i < |codes| ==> codes[i] == [] || (!IsSpace(codes[i][0]) && !IsSpace(codes[i][|codes[i]| - 1]))
    ensures ',' !in icaoCodes ==> codes == [Strip(icaoCodes)]
  {
    var parts := Split(icaoCodes, ',');
    assert forall i :: 0 <= i < |parts| ==> ',' !in Strip(parts[i]) by {
      forall i | 0 <= i < |parts| ensures ',' !in Strip(parts[i]) {
        StripKeepsOut(parts[i], ',');
      }
    }
    if ',' !in icaoCodes then
      SplitWithoutSeparator(icaoCodes, ',');
      [Strip(icaoCodes)]
    else
      seq(|parts|, i requires 0 <= i < |parts| => Strip(parts[i]))
  }

  /** The platform reads back from an entry exactly the codes the configuration
      flow accepted: splitting and stripping the stored string undoes the join. */
  lemma CodesOfAccepted(table: Airports.Table, value: Value)
    requires ConfigFlow.Validated(table, value).Ok?
    ensures Codes(ConfigFlow.Validated(table, value).value) == ConfigFlow.AcceptedCodes(table, value)
  {
    var accepted := ConfigFlow.AcceptedCodes(table, value);
    ConfigFlow.AcceptedSplit(table, value);
    forall k | 0 <= k < |accepted| ensures Strip(accepted[k]) == accepted[k] {
      assert accepted[k] in accepted;
      ConfigFlow.CleanCodeIsNormal(table, accepted[k]);
    }
  }

  /** The sensors of one code, the METAR one before the TAF one. */
  function PlannedFor(code: string, feeds: seq<string>): seq<Planned> {
    (if FEED_METAR in feeds then [Planned(code, Metar)] else [])
    + (if FEED_TAF in feeds then [Planned(code, Taf)] else [])
  }

  /** The sensors of all codes, code by code. */
  function Plan(codes: seq<string>, feeds: seq<string>): seq<Planned> {
    if codes == [] then [] else Plan(codes[..|codes| - 1], feeds) + PlannedFor(codes[|codes| - 1], feeds)
  }

  /** The planned sensors of a prefix of the codes come first in the plan. */
  lemma {:induction false} PlanPrefix(codes: seq<string>, feeds: seq<string>, i: nat)
    requires i <= |codes|
    ensures Plan(codes[..i], feeds) <= Plan(codes, feeds)
    decreases |codes| - i
  {
    if i < |codes| {
      PlanPrefix(codes, feeds, i + 1);
      assert codes[..i + 1][..i] == codes[..i];
    } else {
      assert codes[..i] == codes;
    }
  }

  /** The sensors of one code are those of its selected feeds. */
  lemma PlannedForMembers(code: string, feeds: seq<string>, p: Planned)
    ensures p in PlannedFor(code, feeds) <==> p.code == code && FeedName(p.feed) in feeds
  {
    var m := if FEED_METAR in feeds then [Planned(code, Metar)] else [];
    var t := if FEED_TAF in feeds then [Planned(code, Taf)] else [];
    assert p in PlannedFor(code, feeds) <==> p in m || p in t;
  }

  /** The sensors setup plans are exactly the (code, selected feed) pairs; a
      code listed twice is planned twice. */
  lemma {:induction false} PlanMembers(codes: seq<string>, feeds: seq<string>, p: Planned)
    ensures p in Plan(codes, feeds) <==> p.code in codes && FeedName(p.feed) in feeds
  {
    if codes != [] {
      var init, last := codes[..|codes| - 1], codes[|codes| - 1];
      PlanMembers(init, feeds, p);
      PlannedForMembers(last, feeds, p);
      assert p in Plan(codes, feeds) <==> p in Plan(init, feeds) || p in PlannedFor(last, feeds);
      assert p.code in codes <==> p.code in init || p.code == last by {
        assert codes == init + [last];
      }
    }
  }

  function PlanCodes(plan: seq<Planned>): (codes: seq<string>)
    ensures |codes| == |plan| && forall i :: 0 <= i < |plan| ==> codes[i] == plan[i].code
  {
    seq(|plan|, i requires 0 <= i < |plan| => plan[i].code)
  }

  /** The initial batch of a feed: one fetch of the whole code string when the
      feed is selected, none otherwise. */
  function InitialBatch(api: Api.Client, data: EntryData, feed: Feed): seq<Record> {
    if FeedName(feed) in data.feeds then Api.FetchData(api, FeedUrl(feed), data.icaoCodes) else []
  }

  /** The requests of the initial fetches: at most one per selected feed,
      METAR first, each naming the whole code string. */
  function InitialRequests(data: EntryData): seq<Api.Request> {
    (if FEED_METAR in data.feeds then [Api.BuildRequest(METAR_API_URL, data.icaoCodes)] else [])
    + (if FEED_TAF in data.feeds then [Api.BuildRequest(TAF_API_URL, data.icaoCodes)] else [])
  }

  /** A sensor as the setup leaves it for one planned slot. */
  ghost predicate SetUpAs(s: Sensor, p: Planned, api: Api.Client, codec: TimeCodec, metarBatch: seq<Record>, tafBatch: seq<Record>)
    reads s
  {
    && s.Valid() && s.feed == p.feed && s.icaoCode == Upper(p.code) && s.api == api && s.codec == codec
    && s.data == FindStation(if p.feed == Metar then metarBatch else tafBatch, Upper(p.code))
    && s.icon == DefaultIcon(p.feed)
  }

  /** The sensors are set up as the first slots of the plan say. */
  ghost predicate SetUpAll(ss: seq<Sensor>, plan: seq<Planned>, api: Api.Client, codec: TimeCodec,
                           metarBatch: seq<Record>, tafBatch: seq<Record>)
    reads set s | s in ss
  {
    |ss| <= |plan| && forall i :: 0 <= i < |ss| ==> SetUpAs(ss[i], plan[i], api, codec, metarBatch, tafBatch)
  }

  /** `MetarSensor(...)` / `TafSensor(...)`: the field set-up, then the initial
      update from the feed's batch. */
  method CreateSensor(feed: Feed, code: string, api: Api.Client, codec: TimeCodec, batch: seq<Record>)
    returns (s: Sensor, raised: bool)
    ensures fresh(s)
    ensures s.feed == feed && s.icaoCode == Upper(code) && s.api == api && s.codec == codec
    ensures s.data == FindStation(batch, Upper(code))
    ensures raised == Raises(feed, s.data, codec)
    ensures !raised ==> s.icon == DefaultIcon(feed) && s.Valid()
  {
    s := new Sensor(feed, code, api, codec);
    raised := s.Initialize(batch);
  }

  /** The initial fetches of `async_setup_entry`. */
  method FetchInitial(api: Api.Client, data: EntryData)
    returns (metarBatch: seq<Record>, tafBatch: seq<Record>, requests: seq<Api.Request>)
    ensures metarBatch == InitialBatch(api, data, Metar) && tafBatch == InitialBatch(api, data, Taf)
    ensures requests == InitialRequests(data)
  {
    metarBatch, tafBatch, requests := [], [], [];
    if FEED_METAR in data.feeds {
      metarBatch := Api.GetMetarData(api, data.icaoCodes);
      requests := requests + [Api.BuildRequest(METAR_API_URL, data.icaoCodes)];
    }
    if FEED_TAF in data.feeds {
      tafBatch := Api.GetTafData(api, data.icaoCodes);
      requests := requests + [Api.BuildRequest(TAF_API_URL, data.icaoCodes)];
    }
  }

  /** The plan of the first `i + 1` codes is the plan of the first `i` followed
      by the sensors of code `i`, and it is a prefix of the whole plan. */
  lemma NextCode(data: EntryData, i: nat)
    requires i < |Split(data.icaoCodes, ',')|
    ensures var codes := Codes(data.icaoCodes);
      var next := PlannedFor(Strip(Split(data.icaoCodes, ',')[i]), data.feeds);
      && Plan(codes[..i + 1], data.feeds) == Plan(codes[..i], data.feeds) + next
      && Plan(codes[..i + 1], data.feeds) <= Plan(codes, data.feeds)
  {
    var codes := Codes(data.icaoCodes);
    assert codes[..i + 1][..i] == codes[..i];
    PlanPrefix(codes, data.feeds, i + 1);
  }

  /** Sensors set up as a plan stay set up as the plan when the sensors of one
      more code are appended (all of them, or the ones made before a raise). */
  lemma SetUpAllAppend(ss: seq<Sensor>, made: seq<Sensor>, done: seq<Planned>, next: seq<Planned>,
                       api: Api.Client, codec: TimeCodec, metarBatch: seq<Record>, tafBatch: seq<Record>)
    requires SetUpAll(ss, done, api, codec, metarBatch, tafBatch) && |ss| == |done| && |made| <= |next| <= 2
    requires |made| >= 1 ==> SetUpAs(made[0], next[0], api, codec, metarBatch, tafBatch)
    requires |made| == 2 ==> SetUpAs(made[1], next[1], api, codec, metarBatch, tafBatch)
    ensures SetUpAll(ss + made, done + next, api, codec, metarBatch, tafBatch)
  {
    var all, plan := ss + made, done + next;
    forall i | 0 <= i < |all| ensures SetUpAs(all[i], plan[i], api, codec, metarBatch, tafBatch) {
      if i >= |ss| {
        assert all[i] == made[i - |ss|] && plan[i] == next[i - |ss|];
      } else {
        assert all[i] == ss[i] && plan[i] == done[i];
      }
    }
  }

  /** Sensors set up as a prefix of a plan are set up as the plan. */
  lemma SetUpAllWithin(ss: seq<Sensor>, prefix: seq<Planned>, plan: seq<Planned>,
                       api: Api.Client, codec: TimeCodec, metarBatch: seq<Record>, tafBatch: seq<Record>)
    requires SetUpAll(ss, prefix, api, codec, metarBatch, tafBatch) && prefix <= plan
    ensures SetUpAll(ss, plan, api, codec, metarBatch, tafBatch)
  {
    forall i | 0 <= i < |ss| ensures SetUpAs(ss[i], plan[i], api, codec, metarBatch, tafBatch) {
      assert plan[i] == prefix[i];
    }
  }

  /** The registration keys of a plan followed by part of the next code's sensors. */
  lemma KeysAppend(done: seq<Planned>, next: seq<Planned>, m: nat)
    requires m <= |next|
    ensures PlanCodes(done + next)[..|done| + m] == PlanCodes(done) + PlanCodes(next)[..m]
    ensures m == |next| ==> PlanCodes(done + next) == PlanCodes(done) + PlanCodes(next)[..m]
  {
    var all := done + next;
    assert forall j :: 0 <= j < |next| ==> all[|done| + j] == next[j];
    assert PlanCodes(next)[..|next|] == PlanCodes(next);
  }

  /** The first keys of a plan prefix are the first keys of the plan. */
  lemma KeysWithin(prefix: seq<Planned>, plan: seq<Planned>, n: nat)
    requires prefix <= plan && n <= |prefix|
    ensures PlanCodes(prefix)[..n] == PlanCodes(plan)[..n]
  {
    assert forall j :: 0 <= j < n ==> prefix[j] == plan[j];
  }

  /** The sensors of one code in the entity loop of `async_setup_entry`: a METAR
      one, then a TAF one, as the feeds select, each appended to the code's list
      right after it is set up; a raise stops before the append. */
  method SetupCode(reg: Registry.Registry<Sensor>, data: EntryData, code: string, api: Api.Client, codec: TimeCodec,
                   metarBatch: seq<Record>, tafBatch: seq<Record>)
    returns (made: seq<Sensor>, raised: bool, reg': Registry.Registry<Sensor>)
    ensures var p := PlannedFor(code, data.feeds);
      && |made| <= |p| && (!raised ==> |made| == |p|)
      && (|made| >= 1 ==> SetUpAs(made[0], p[0], api, codec, metarBatch, tafBatch))
      && (|made| == 2 ==> SetUpAs(made[1], p[1], api, codec, metarBatch, tafBatch))
    ensures reg' == Registry.RegisterAll(reg, PlanCodes(PlannedFor(code, data.feeds))[..|made|], made)
  {
    ghost var p := PlannedFor(code, data.feeds);
    made, raised, reg' := [], false, reg;
    if FEED_METAR in data.feeds {
      var s, r := CreateSensor(Metar, code, api, codec, metarBatch);
      if r {
        return made, true, reg';
      }
      reg' := Registry.Add(reg', code, s);
      made := [s];
    }
    if FEED_TAF in data.feeds {
      var s, r := CreateSensor(Taf, code, api, codec, tafBatch);
      if r {
        return made, true, reg';
      }
      reg' := Registry.Add(reg', code, s);
      made := made + [s];
    }
    Registry.AddUpToTwo(reg, code, PlanCodes(p)[..|made|], made);
  }

  /** The sensors one round of the entity loop leaves set up, from what
      `SetupCode` promises about the sensors of code `i`. */
  lemma NextCodeSetUp(data: EntryData, i: nat, entities: seq<Sensor>, made: seq<Sensor>, raised: bool,
                      api: Api.Client, codec: TimeCodec, metarBatch: seq<Record>, tafBatch: seq<Record>)
    requires i < |Split(data.icaoCodes, ',')|
    requires var done := Plan(Codes(data.icaoCodes)[..i], data.feeds);
      |entities| == |done| && SetUpAll(entities, done, api, codec, metarBatch, tafBatch)
    requires var p := PlannedFor(Strip(Split(data.icaoCodes, ',')[i]), data.feeds);
      && |made| <= |p| && (!raised ==> |made| == |p|)
      && (|made| >= 1 ==> SetUpAs(made[0], p[0], api, codec, metarBatch, tafBatch))
      && (|made| == 2 ==> SetUpAs(made[1], p[1], api, codec, metarBatch, tafBatch))
    ensures var done := Plan(Codes(data.icaoCodes)[..i + 1], data.feeds);
      !raised ==> |entities + made| == |done| && SetUpAll(entities + made, done, api, codec, metarBatch, tafBatch)
    ensures raised ==> SetUpAll(entities + made, Plan(Codes(data.icaoCodes), data.feeds), api, codec, metarBatch, tafBatch)
  {
    var done := Plan(Codes(data.icaoCodes)[..i], data.feeds);
    var next := PlannedFor(Strip(Split(data.icaoCodes, ',')[i]), data.feeds);
    NextCode(data, i);
    SetUpAllAppend(entities, made, done, next, api, codec, metarBatch, tafBatch);
    if raised {
      SetUpAllWithin(entities + made, done + next, Plan(Codes(data.icaoCodes), data.feeds), api, codec, metarBatch, tafBatch);
    }
  }

  /** The registry after the sensors of one more code (all of them, or the
      ones made before a raise) are appended to a registry built from a plan prefix. */
  lemma RegistryAfterRound(reg: Registry.Registry<Sensor>, done: seq<Planned>, next: seq<Planned>, plan: seq<Planned>,
                           entities: seq<Sensor>, made: seq<Sensor>, cur: Registry.Registry<Sensor>,
                           after: Registry.Registry<Sensor>)
    requires |entities| == |done| && |made| <= |next| && done + next <= plan
    requires cur == Registry.RegisterAll(reg, PlanCodes(done), entities)
    requires after == Registry.RegisterAll(cur, PlanCodes(next)[..|made|], made)
    ensures after == Registry.RegisterAll(reg, PlanCodes(plan)[..|entities + made|], entities + made)
    ensures |made| == |next| ==> after == Registry.RegisterAll(reg, PlanCodes(done + next), entities + made)
  {
    var keys := PlanCodes(next)[..|made|];
    KeysAppend(done, next, |made|);
    Registry.RegisterAllAppend(reg, PlanCodes(done), entities, keys, made);
    assert after == Registry.RegisterAll(reg, PlanCodes(done) + keys, entities + made);
    KeysWithin(done + next, plan, |done| + |made|);
    assert PlanCodes(plan)[..|entities + made|] == PlanCodes(done) + keys;
  }

  /** The registry one round of the entity loop leaves, from what `SetupCode`
      promises about it. */
  lemma NextCodeRegistry(reg: Registry.Registry<Sensor>, data: EntryData, i: nat, entities: seq<Sensor>,
                         cur: Registry.Registry<Sensor>, made: seq<Sensor>, raised: bool, after: Registry.Registry<Sensor>)
    requires i < |Split(data.icaoCodes, ',')|
    requires var done := Plan(Codes(data.icaoCodes)[..i], data.feeds);
      |entities| == |done| && cur == Registry.RegisterAll(reg, PlanCodes(done), entities)
    requires var p := PlannedFor(Strip(Split(data.icaoCodes, ',')[i]), data.feeds);
      && |made| <= |p| && (!raised ==> |made| == |p|)
      && after == Registry.RegisterAll(cur, PlanCodes(p)[..|made|], made)
    ensures var done := Plan(Codes(data.icaoCodes)[..i + 1], data.feeds);
      !raised ==> |entities + made| == |done| && after == Registry.RegisterAll(reg, PlanCodes(done), entities + made)
    ensures var plan := Plan(Codes(data.icaoCodes), data.feeds);
      raised ==> (|entities + made| <= |plan|
        && after == Registry.RegisterAll(reg, PlanCodes(plan)[..|entities + made|], entities + made))
  {
    var done := Plan(Codes(data.icaoCodes)[..i], data.feeds);
    var next := PlannedFor(Strip(Split(data.icaoCodes, ',')[i]), data.feeds);
    NextCode(data, i);
    RegistryAfterRound(reg, done, next, Plan(Codes(data.icaoCodes), data.feeds), entities, made, cur, after);
  }

  /** One round of the entity loop of `async_setup_entry`: the sensors of code
      `i`, set up and appended to the registry after those of the codes before
      it. A raise ends the loop with the sensors made so far. */
  method SetupNextCode(ghost reg: Registry.Registry<Sensor>, data: EntryData, i: nat, entities: seq<Sensor>,
                       cur: Registry.Registry<Sensor>, api: Api.Client, codec: TimeCodec,
                       metarBatch: seq<Record>, tafBatch: seq<Record>)
    returns (entities': seq<Sensor>, raised: bool, reg': Registry.Registry<Sensor>)
    requires i < |Split(data.icaoCodes, ',')|
    requires var done := Plan(Codes(data.icaoCodes)[..i], data.feeds);
      && |entities| == |done| && SetUpAll(entities, done, api, codec, metarBatch, tafBatch)
      && cur == Registry.RegisterAll(reg, PlanCodes(done), entities)
    ensures var done := Plan(Codes(data.icaoCodes)[..i + 1], data.feeds);
      !raised ==>
        && |entities'| == |done| && SetUpAll(entities', done, api, codec, metarBatch, tafBatch)
        && reg' == Registry.RegisterAll(reg, PlanCodes(done), entities')
    ensures var plan := Plan(Codes(data.icaoCodes), data.feeds);
      raised ==>
        && SetUpAll(entities', plan, api, codec, metarBatch, tafBatch)
        && reg' == Registry.RegisterAll(reg, PlanCodes(plan)[..|entities'|], entities')
  {
    var code := Strip(Split(data.icaoCodes, ',')[i]);
    var made;
    made, raised, reg' := SetupCode(cur, data, code, api, codec, metarBatch, tafBatch);
    NextCodeSetUp(data, i, entities, made, raised, api, codec, metarBatch, tafBatch);
    NextCodeRegistry(reg, data, i, entities, cur, made, raised, reg');
    entities' := entities + made;
  }

  /** The entity loop of `async_setup_entry`, over the stripped codes in order. */
  method RegisterSensors(reg: Registry.Registry<Sensor>, data: EntryData, api: Api.Client, codec: TimeCodec,
                         metarBatch: seq<Record>, tafBatch: seq<Record>)
    returns (entities: seq<Sensor>, raised: bool, reg': Registry.Registry<Sensor>)
    ensures var plan := Plan(Codes(data.icaoCodes), data.feeds);
      && SetUpAll(entities, plan, api, codec, metarBatch, tafBatch)
      && (!raised ==> |entities| == |plan|)
      && reg' == Registry.RegisterAll(reg, PlanCodes(plan)[..|entities|], entities)
  {
    ghost var codes := Codes(data.icaoCodes);
    var parts := Split(data.icaoCodes, ',');
    entities, raised, reg' := [], false, reg;
    var i := 0;
    assert codes[..0] == [];
    while i < |parts|
      invariant 0 <= i <= |parts| && !raised
      invariant |entities| == |Plan(codes[..i], data.feeds)|
      invariant SetUpAll(entities, Plan(codes[..i], data.feeds), api, codec, metarBatch, tafBatch)
      invariant reg' == Registry.RegisterAll(reg, PlanCodes(Plan(codes[..i], data.feeds)), entities)
    {
      entities, raised, reg' := SetupNextCode(reg, data, i, entities, reg', api, codec, metarBatch, tafBatch);
      if raised {
        return;
      }
      i := i + 1;
    }
    assert codes[..i] == codes;
    assert PlanCodes(Plan(codes, data.feeds))[..|entities|] == PlanCodes(Plan(codes, data.feeds));
  }

  /** `async_setup_entry` of the sensor platform. It records the client under
      the entry id, fetches each selected feed once for the whole code string,
      then creates one sensor per stripped code and selected feed (METAR before
      TAF), each set up from its feed's batch and appended to the list of its
      code. A sensor whose initial update raises aborts the setup: neither it
      nor any later one is registered, while the earlier ones stay registered. */
  method SetupEntry(domain: DomainData, entry: ConfigEntry, api: Api.Client, codec: TimeCodec)
    returns (entities: seq<Sensor>, requests: seq<Api.Request>, raised: bool)
    requires domain.present && domain.Valid()
    modifies domain
    ensures domain.Valid() && domain.present
    ensures domain.entries == old(domain.entries) && domain.serviceRegistered == old(domain.serviceRegistered)
    ensures domain.apis == Some((if old(domain.apis).Some? then old(domain.apis).value else map[])[entry.entryId := api])
    ensures requests == InitialRequests(entry.data)
    ensures var plan := Plan(Codes(entry.data.icaoCodes), entry.data.feeds);
      && SetUpAll(entities, plan, api, codec, InitialBatch(api, entry.data, Metar), InitialBatch(api, entry.data, Taf))
      && (!raised ==> |entities| == |plan|)
      && domain.entities == Some(Registry.RegisterAll(OrEmpty(old(domain.entities)), PlanCodes(plan)[..|entities|], entities))
  {
    var apis := if domain.apis.Some? then domain.apis.value else map[];
    var reg;
    entities, requests, raised, reg := SetupSensors(OrEmpty(domain.entities), entry.data, api, codec);
    domain.apis, domain.entities := Some(apis[entry.entryId := api]), Some(reg);
  }

  /** The fetches and the entity loop of `async_setup_entry`, from the
      registry the entry starts with. */
  method SetupSensors(base: Registry.Registry<Sensor>, data: EntryData, api: Api.Client, codec: TimeCodec)
    returns (entities: seq<Sensor>, requests: seq<Api.Request>, raised: bool, reg: Registry.Registry<Sensor>)
    requires Registry.Valid(base)
    ensures Registry.Valid(reg)
    ensures requests == InitialRequests(data)
    ensures var plan := Plan(Codes(data.icaoCodes), data.feeds);
      && SetUpAll(entities, plan, api, codec, InitialBatch(api, data, Metar), InitialBatch(api, data, Taf))
      && (!raised ==> |entities| == |plan|)
      && reg == Registry.RegisterAll(base, PlanCodes(plan)[..|entities|], entities)
  {
    var metarBatch, tafBatch;
    metarBatch, tafBatch, requests := FetchInitial(api, data);
    entities, raised, reg := RegisterSensors(base, data, api, codec, metarBatch, tafBatch);
    Registry.RegisterAllValid(base, PlanCodes(Plan(Codes(data.icaoCodes), data.feeds))[..|entities|], entities);
  }
}
